# TikTok-to-Facebook relay bot: a Dafny model of its orchestrator

The bot in `main.js` listens to a WhatsApp chat and handles two commands:

- `!s <url>` downloads one TikTok video through a download API and ffmpeg,
  re-encodes it with rewritten metadata, uploads it to a Facebook page,
  unlinks both working files and replies `✅ Video berhasil diupload!`.
- `!l` followed by one URL per line does the same for each line in turn.
  It waits 30 seconds after each video and replies
  `✅ N video berhasil diupload!`.

If any stage throws, the handler replies `❌ Error: ` followed by the
message. When the process is interrupted, `secureCleanup` encrypts every
file left in `temp` under a fresh IV, writes the result over the file and
unlinks it.

## How the model is built

The model is written in two layers.

**Functions.** The functions describe what the bot does to a `World`:

- the files in `temp`, by path;
- the record, in order, of the calls that the outside world sees or that
  change `temp`: API request, ffmpeg fetch, ffmpeg transcode, upload,
  unlink, wait, reply and file write. Reads leave no entry:
  `readdirSync`, `readFileSync`, `existsSync`, `createReadStream` and the
  random draws are not recorded.

The outside world comes in as an oracle. A `JobEnv` supplies four
outcomes:

- the download API's answer;
- how each of the two ffmpeg runs ends;
- how the upload ends.

It also supplies the two 16-hex-digit tokens the job's file names are made
from. Job `i` of a message meets `env(i)`.

The functions are spread over these modules:

- `Commands` routes messages.
- `Stages` holds the three stages, the unlinks and one job.
- `Orchestrator` holds the batch loop and the handler.
- `SecureStore` holds `secureCleanup`.
- `Crypto` holds the shape of `encrypt`.
- `Names` holds the working-file names.
- `Messages` holds the reply and error texts.
- `Text` and `Hex` hold `split`, decimal and hex rendering.

**The class.** `Relay.Bot` is the running bot. Its fields are the files of
`temp`, the record of calls and whether `temp` exists. It has one method
per function of `main.js` except `encrypt` and the functions listed under
"Left out" (the `qr` and `authenticated` callbacks and the SIGINT
listener). `encrypt` stays the function `Crypto.Encrypt` that
`Relay.Bot.EraseEntry` calls. The calls into `fs`
and `msg.reply` map onto the class as follows:

- `unlinkSync`, `readFileSync`, `writeFileSync` and `readdirSync` are the
  methods `UnlinkSync`, `ReadFileSync`, `WriteFileSync` and `ReadDir`;
- `msg.reply` is the method `SendReply`;
- `existsSync('temp')` is the field `tempExists`;
- `mkdirSync('temp')` at start-up is the constructor.

The loops of the source stay loops:

- the `forEach` of unlinks;
- the batch's `for … of`;
- the `forEach` of `secureCleanup`;
- `readdirSync`.

Each method except the five primitive calls is proved to change the
state exactly as the matching function says, so every lemma about the
functions holds of the bot. `UnlinkSync` matches `Stages.Unlink`. The
other four primitives have no matching function:

- `SendReply` promises that the reply is appended to the record.
- `ReadDir` promises a listing of every file in `temp` exactly once.
- `ReadFileSync` promises the file's contents, or ENOENT when it is
  missing, and changes nothing.
- `WriteFileSync` promises the new contents and one `WriteFile` record.

The model follows the code as written, including these behaviours a
reader may not expect:

- **No cleanup on failure.** A job that throws unlinks nothing. Whatever
  it had written stays in `temp` until `secureCleanup`.
- **The first failure ends a batch.** Later lines are never started.
  The batch gets one reply: the success count, or the first error.
- **The batch count counts lines.** The success reply counts every line
  after the header, blank ones included.
- **Job cleanup does not encrypt.** A successful job removes its files
  with a plain `unlinkSync`. Only `secureCleanup` encrypts.
- **Errors are plain messages.** A download failure carries the prefix
  `Download failed: ` and an upload failure `Facebook upload failed: `.
  `processVideo` passes ffmpeg's message on unchanged.
- **Empty URLs are not refused.** `!s ` with nothing after it runs a
  job on the empty URL, and so does each blank line of a batch. The
  download API is asked about `""`, and the reply is whatever error comes
  back (`Orchestrator.EmptyUrlRunsAJob`, `Orchestrator.BlankLineRunsAJob`).
- **A missing key fails on the first file.** `secureCleanup` then throws
  before anything is overwritten. Nothing catches the throw.

## Model

| member | source | states |
|---|---|---|
| Text.StartsWith | main.js:104-118 | the `startsWith` test; the routing it decides is stated by `Commands.ParseCommand` |
| Text.Split | main.js:105-119 | JavaScript's one-character `split`: always at least one piece; `Text.SplitJoin`, `Text.JoinSplit`, `Text.SplitCount`, `Text.SplitAtFirstSeparator` and `Text.SplitWithoutSeparator` state the rest |
| Commands.ParseCommand | main.js:104-119 | a body is a single job exactly when it starts with `!s ` and a batch exactly when it starts with `!l`; the two never both hold |
| Commands.SingleUrlIsFirstToken | main.js:104-105 | the single job's URL is the space-free token after `!s `, ended by a space or the end of the body |
| Commands.BatchUrlsAreLines | main.js:118-119 | the batch's URLs are exactly the lines after the header, in order, blank ones included |
| Commands.BatchWithoutLines | main.js:118-119 | a header with no newline is a batch of no URLs |
| Commands.BatchSize | main.js:119 | a batch has one URL per newline in the body |
| Text.SplitJoin | main.js:119 | joining the pieces of a split gives the string back, and no piece contains the separator |
| Text.JoinSplit | main.js:119 | splitting a joined list of separator-free lines gives the lines back |
| Text.SplitCount | main.js:119 | a split has one more piece than the string has separators |
| Text.SplitAtFirstSeparator | main.js:105 | the first piece of a split ends at the first separator |
| Text.SplitWithoutSeparator | main.js:105 | a string without the separator splits into itself alone |
| Text.Decimal | main.js:131 | the `${urls.length}` rendering; `Text.DecimalRoundTrip` shows it reads back as the count |
| Text.DecimalRoundTrip | main.js:131 | the decimal rendering of the count reads back as the count |
| Messages.BatchDone | main.js:131 | the batch success text; `Messages.ReadReplyRoundTrip` reads its count back |
| Messages.ErrorReply | main.js:134 | the `❌ Error: ` reply; `Messages.ReadReplyRoundTrip` reads its message back |
| Messages.DownloadFailed | main.js:30 | the `Download failed: ` rethrow; `Stages.FailureMessages` states which messages carry it |
| Messages.Truthy | main.js:17 | JavaScript truthiness of an optional string, used for `data?.url` and for the remote error message; `Stages.FailureMessages` states its effect |
| Messages.UploadFailed | main.js:79 | the `Facebook upload failed: ` rethrow, with the remote message when it is non-empty and the local one otherwise; `Stages.FailureMessages` states it |
| Messages.NoSuchFile | main.js:113 | Node's ENOENT message for `unlinkSync` (and for `readFileSync` at main.js:142); `Stages.CleanupNeverThrows` shows a job never meets it |
| Messages.ReadReplyRoundTrip | main.js:115-134 | the three kinds of reply are told apart and read back: the single success, a batch success with its count, an error with its message |
| Hex.ToHex | main.js:19 | `toString('hex')`: two lower-case hex digits per byte; `Hex.HexRoundTrip` shows it loses nothing |
| Hex.HexRoundTrip | main.js:19 | decoding the hex rendering of bytes gives the bytes back |
| Hex.HexStringRoundTrip | main.js:19 | every even-length string of lower-case hex digits is the rendering of the bytes it decodes to |
| Names.TokensAreRenderings | main.js:19 | the hex of 8 random bytes is a 16-digit token, and each token renders exactly one choice of 8 bytes |
| Names.EntryRoundTrip | main.js:142 | `temp/<name>` reads back as `<name>`, and exactly the paths inside `temp` name an entry |
| Names.RawPath | main.js:19 | the path `temp/<hex>.mp4` of a download; `Names.NameRoundTrip` and `Names.PathsDistinct` state its shape and freshness |
| Names.ProcessedPath | main.js:36 | the path `temp/<hex>_processed.mp4` of a transcode; same lemmas |
| Names.NameRoundTrip | main.js:19-36 | the working-file names are a token followed by `.mp4` or `_processed.mp4`, and read back to their kind and token |
| Names.NamesDistinct | main.js:19-36 | a raw name and a processed name never coincide; names of one kind coincide only when their tokens do |
| Names.PathsDistinct | main.js:19-36 | the same holds of the two kinds of path under `temp/` |
| Crypto.Encrypt | main.js:150-154 | encryption succeeds exactly with a 32-byte key, fails with KeyMissing when no key is configured and with InvalidKeyLength when the key is not 32 bytes, and produces the IV followed by the cipher output |
| Crypto.SplitIv | main.js:153 | splitting an encrypted blob after 16 bytes gives back its two parts |
| Stages.Download | main.js:12-32 | `downloadTikTok`; its outcomes are stated by `Stages.DownloadFails`, `Stages.JobSteps` and `Stages.FailureMessages` |
| Stages.Process | main.js:35-55 | `processVideo`; stated by `Stages.ProcessFails` and `Stages.JobSteps` |
| Stages.Upload | main.js:58-81 | `uploadToFacebook`; stated by `Stages.UploadFails`, `Stages.RejectedUpload` and `Stages.FailureMessages` |
| Stages.Unlink | main.js:113 | `fs.unlinkSync`: removes the file or throws ENOENT; stated by `Stages.UnlinkBoth` |
| Stages.UnlinkAll | main.js:113 | the `forEach` of unlinks, stopping at the first throw; stated by `Stages.UnlinkBoth` and `Stages.CleanupNeverThrows` |
| Stages.Job | main.js:108-113 | one job; its calls, result and files are stated in closed form by `Stages.JobSteps` |
| Stages.FailureMessages | main.js:12-81 | a job fails exactly when a stage fails; download errors start with `Download failed: `, a falsy media URL gives `Download failed: Invalid TikTok URL`, transcoder errors pass unchanged, and upload errors start with `Facebook upload failed: ` followed by the non-empty remote message or else the local one |
| Stages.JobSteps | main.js:108-113 | a job's calls are the planned ones (download, fetch, transcode, upload, two unlinks), cut after the first failing stage; it throws exactly the first failure; on success it removes exactly its two files, on failure it leaves what it wrote |
| Stages.DownloadFails | main.js:12-32 | a failing download makes one or two calls, writes no file and throws the prefixed message |
| Stages.ProcessFails | main.js:35-55 | a failing transcode leaves the raw file in `temp` and throws ffmpeg's message |
| Stages.UploadFails | main.js:58-81 | a rejected upload leaves both files in `temp` and throws the upload message |
| Stages.NothingFails | main.js:108-113 | a job with no failure makes all six planned calls and removes both of its files |
| Stages.UnlinkBoth | main.js:113 | unlinking two distinct existing files removes both and throws nothing |
| Stages.FailedJobKeepsItsFiles | main.js:108-113 | a job that throws runs no unlink and makes at most four calls |
| Stages.SuccessfulJobRestoresTemp | main.js:113 | with fresh names, a successful job leaves `temp` as it found it |
| Stages.CleanupNeverThrows | main.js:113 | once the upload succeeds, both unlinks find their file and the job succeeds |
| Stages.RejectedUpload | main.js:79 | a job whose upload fails throws the upload error and leaves exactly its two paths |
| Orchestrator.RunBatch | main.js:121-129 | the batch loop; stated by `Orchestrator.BatchThrows`, `Orchestrator.BatchLog`, `Orchestrator.BatchViews` and `Orchestrator.BatchFiles` |
| Orchestrator.Reply | main.js:115-134 | the one `msg.reply` that ends a command; stated by `Orchestrator.ReplyViews` |
| Orchestrator.Handle | main.js:102-136 | the message handler; stated by `Orchestrator.SingleCommand`, `Orchestrator.BatchCommand` and `Orchestrator.OneReplyPerCommand` |
| Orchestrator.PlannedViews | main.js:108-110 | a job asks the API about its own URL once and sends no reply |
| Orchestrator.JobViews | main.js:108-110 | the same, of the world after the job |
| Orchestrator.ReplyViews | main.js:133-134 | the reply adds exactly one reply, as the last call: the success text or `❌ Error: ` and the message |
| Orchestrator.Started | main.js:121-129 | a batch starts at least one and at most all of its jobs |
| Orchestrator.FirstFailure | main.js:121-129 | every job before the last one started succeeded; the batch succeeds exactly when every job does, and then all start; otherwise the last started job throws the batch's message |
| Orchestrator.BatchLeavesClosed | main.js:121-129 | the files a batch leaves, in closed form: the successful jobs' paths removed, plus the failing job's leftovers |
| Orchestrator.BatchThrows | main.js:121-129 | the batch throws the message of its first failing job, or nothing |
| Orchestrator.BatchLog | main.js:121-129 | the batch makes each job's calls, with a 30-second wait after each successful one, and nothing after the first failure |
| Orchestrator.BatchCallsViews | main.js:121-129 | a batch's calls ask the API about the started jobs' URLs, strictly in input order, and reply nothing |
| Orchestrator.BatchViews | main.js:121-129 | the same, of the world after the batch |
| Orchestrator.BatchLeavesRun | main.js:121-129 | a batch leaves `temp` as its jobs' effects say, one job after the other |
| Orchestrator.BatchFiles | main.js:121-129 | what a batch leaves in `temp`: earlier jobs' files removed, the failing job's files kept |
| Orchestrator.BatchRestoresTemp | main.js:127 | with fresh names, a successful batch leaves `temp` as it found it |
| Orchestrator.SingleCommand | main.js:104-116 | `!s` runs one job on its URL, then sends one reply, the success text or the error; the files are as the job leaves them |
| Orchestrator.BatchCommand | main.js:118-135 | `!l` asks the API about the started lines in order and sends one final reply: the line count on success, otherwise the first failure's message; `temp` keeps the failing job's files |
| Orchestrator.SingleViews | main.js:104-116 | `!s` makes one API request, for its URL, and sends one reply |
| Orchestrator.OneReplyPerCommand | main.js:102-136 | a command gets exactly one reply; any other message changes nothing |
| Orchestrator.GoodLinkScenario | main.js:104-116 | a good link on an empty `temp` gives one request, the success reply and an empty `temp` |
| Orchestrator.BatchStopsAtFailedUpload | main.js:118-135 | in a batch of three whose second upload is rejected, the third line is never requested, the reply is the upload error, the first job's files are gone and the second job's stay |
| Orchestrator.StopsAtSecond | main.js:118-135 | the same, for any batch of three URLs |
| Orchestrator.ThreeLines | main.js:119 | a header and three lines make a batch of those three URLs |
| Orchestrator.EmptyUrlRunsAJob | main.js:104-108 | `!s ` with nothing after it runs a job on the empty URL, which is sent to the download API |
| Orchestrator.BlankLineRunsAJob | main.js:119-122 | a blank batch line is a job on the empty URL, which is sent to the download API |
| SecureStore.EraseEntry | main.js:142-145 | one turn of the cleanup's `forEach`; stated by `SecureStore.EntryErased` and `SecureStore.BadKeyChangesNothing` |
| SecureStore.EraseEach | main.js:141-146 | the `forEach`, stopping at the first throw; stated by `SecureStore.EraseAll` |
| SecureStore.SecureCleanup | main.js:139-148 | `secureCleanup`; stated by `SecureStore.CleanupErasesEverything`, `SecureStore.CleanupFailsOnlyOnTheKey` and `SecureStore.NothingToErase` |
| SecureStore.TempPathInjective | main.js:142 | two entries share a path only when they are the same entry |
| SecureStore.EntryErased | main.js:141-146 | with a usable key, one entry is overwritten with its IV and ciphertext, then removed |
| SecureStore.EraseAll | main.js:141-146 | with a usable key, every listed entry is sealed, written back and removed, in listing order, and nothing fails |
| SecureStore.CleanupErasesEverything | main.js:139-148 | with a usable key and a true listing, the cleanup fails nowhere, leaves `temp` empty and overwrites each file just before removing it |
| SecureStore.ErasuresAt | main.js:141-146 | call `2i` writes entry `i` with IV `i` in front of the ciphertext of its original contents; call `2i+1` removes it |
| SecureStore.SealedCarriesItsIv | main.js:150-154 | each written blob starts with the 16-byte IV it was encrypted under, followed by the ciphertext |
| SecureStore.BadKeyChangesNothing | main.js:143-152 | a missing key, or one that is not 32 bytes, stops the cleanup at the first file, before anything is written or removed: files and record are unchanged (the read of that file leaves no record) |
| SecureStore.CleanupFailsOnlyOnTheKey | main.js:139-154 | on a true listing the cleanup succeeds exactly when the key is usable or `temp` is empty, and a failed cleanup changes nothing |
| SecureStore.NothingToErase | main.js:140 | nothing happens when `temp` is absent or empty |
| Relay.Bot.constructor | main.js:157-158 | start-up creates `temp` when it is missing and keeps its contents when it is present |
| Relay.Bot.DownloadTikTok | main.js:12-32 | the download changes the bot exactly as `Stages.Download` says |
| Relay.Bot.ProcessVideo | main.js:35-55 | the transcode changes the bot exactly as `Stages.Process` says |
| Relay.Bot.UploadToFacebook | main.js:58-81 | the upload changes the bot exactly as `Stages.Upload` says |
| Relay.Bot.UnlinkSync | main.js:113 | removes the file, or throws ENOENT, as `Stages.Unlink` says |
| Relay.Bot.RemoveWorkingFiles | main.js:113 | the unlink loop does what `Stages.UnlinkAll` says, stopping at the first throw |
| Relay.Bot.RunJob | main.js:108-113 | one job changes the bot exactly as `Stages.Job` says |
| Relay.Bot.RunBatch | main.js:121-129 | the batch loop does what `Orchestrator.RunBatch` says, leaving at the first throw |
| Relay.Bot.SendReply | main.js:115 | a reply is recorded as the last call |
| Relay.Bot.OnMessage | main.js:102-136 | the message handler changes the bot exactly as `Orchestrator.Handle` says, and keeps every file inside `temp` |
| Relay.Bot.ReadDir | main.js:141 | the listing names every file in `temp` exactly once |
| Relay.Bot.ReadFileSync | main.js:142 | gives the file's contents when it is there and ENOENT otherwise, changing nothing |
| Relay.Bot.WriteFileSync | main.js:144 | the file now holds the new bytes, nothing else in `temp` changes, and one `WriteFile` call is recorded |
| Relay.Bot.EraseEntry | main.js:142-145 | one turn of the cleanup's `forEach`, as `SecureStore.EraseEntry` says |
| Relay.Bot.EraseListed | main.js:141-146 | the cleanup's `forEach` does what `SecureStore.EraseEach` says |
| Relay.Bot.SecureCleanup | main.js:139-148 | `secureCleanup` lists `temp` truly and does what `SecureStore.SecureCleanup` says |

## Left out

- The WhatsApp client is left out: its construction, the QR code and
  saving the session to `.env` (main.js:84-100). These are chat
  transport and file I/O.
- The HTTP requests to the download API and the Graph API are left out:
  their bodies, headers, access token and page id (main.js:14-15,
  60-75). Only their outcome is modelled, as an answer or an error
  message. The response `uploadToFacebook` returns is not kept, because
  the handler ignores it.
- ffmpeg itself is left out, with the metadata and noise options and the
  `Date.now()` title (main.js:20-26, 38-52). A run either writes the
  bytes it is given or fails with a message.
- A failed ffmpeg run writes no file in the model. Partial outputs it
  might leave on disk are not modelled.
- AES-256-CBC is a parameter `Cipher`, and the sixteen random IV bytes
  are a parameter `ivs`. The eight random bytes behind each file name
  are the job's two tokens. `Names.TokensAreRenderings` shows that each
  token stands for exactly one choice of bytes.
- Names are not assumed to be fresh. Lemmas that need fresh names take
  it as a hypothesis.
- The 30-second `setTimeout` is recorded as a `Wait` call. No time
  passes in the model.
- Each message is handled to completion before the next one. In Node, a
  second message arriving during an `await` would interleave with the
  first; that interleaving is not modelled.
- `msg.reply` always succeeds in the model. A reply that throws inside
  the `catch` would be an unhandled rejection in the source.
- File-system errors other than a missing file are not modelled. These
  include permissions, a directory inside `temp` and a full disk. The
  unlink that follows a write in `secureCleanup` therefore cannot fail.
- Node's exact `TypeError` text for a missing key and for a bad key
  length is not modelled. The model keeps the two reasons as
  `CryptoError` values.
- The key is taken as its bytes. Converting the configured string to
  UTF-8 (`Buffer.from`) is not modelled.
- The SIGINT listener and `process.exit` are left out (main.js:160-166).
  Only `secureCleanup`, which the listener calls, is modelled.
- SecureStore.BadKeyChangesNothing: "changes nothing" is about the files
  and the record of calls. The source has already read the first file
  with `readFileSync` when `encrypt` throws; reads are not recorded, so
  that read is not visible in the model.
- Relay.Bot.WriteFileSync: takes only paths inside `temp`, the only
  place `secureCleanup` writes. A write elsewhere is not modelled.
- `readdirSync`'s order is left open. `Relay.Bot.ReadDir`
  returns some listing of every entry exactly once.
- `response.data?.url` is modelled as an optional string, whose empty
  value is falsy. Non-string values of that field are not modelled.
- config.js is not part of this model. It only reads environment
  variables.
