/** The texts the bot sends back to the chat and the error messages its
    stages throw (main.js:17, 30, 79, 115, 131, 134). */
module Messages {
  import opened Text

  const SuccessMark := "✅ "
  const ErrorMark := "❌ Error: "
  const BatchTail := " video berhasil diupload!"

  /** Reply to a single job that went through. */
  const SingleDone := "✅ Video berhasil diupload!"

  /** Reply to a batch that went through: the number of URLs in it. */
  function BatchDone(count: nat): string
  {
    SuccessMark + Decimal(count) + BatchTail
  }

  /** Reply to any command whose pipeline threw. */
  function ErrorReply(message: string): string
  {
    ErrorMark + message
  }

  const DownloadPrefix := "Download failed: "
  const InvalidTikTokUrl := "Invalid TikTok URL"
  const UploadPrefix := "Facebook upload failed: "

  /** What `downloadTikTok` rethrows for any error raised inside it. */
  function DownloadFailed(reason: string): string
  {
    DownloadPrefix + reason
  }

  /** JavaScript truthiness of an optional string: present and not empty. */
  predicate Truthy(s: Option<string>)
  {
    s.Some? && s.value != ""
  }

  /** What `uploadToFacebook` rethrows: the Graph API's own error message when
      the response carries a non-empty one, the local error message otherwise. */
  function UploadFailed(remote: Option<string>, local: string): string
  {
    UploadPrefix + (if Truthy(remote) then remote.value else local)
  }

  /** Node's message for a file-system call on a path that does not exist. */
  function NoSuchFile(syscall: string, path: string): string
  {
    "ENOENT: no such file or directory, " + syscall + " '" + path + "'"
  }

  /** What a reader of the chat learns from a reply. */
  datatype ReplyKind = Uploaded(count: Option<nat>) | Failed(message: string)

  /** Reads a reply back: a failure with its message, the single-job
      success, or a batch success with its count. */
  function ReadReply(text: string): Option<ReplyKind>
  {
    if StartsWith(text, ErrorMark) then Some(Failed(text[|ErrorMark|..]))
    else if text == SingleDone then Some(Uploaded(None))
    else if StartsWith(text, SuccessMark) && |text| > |SuccessMark| + |BatchTail|
      && text[|text| - |BatchTail|..] == BatchTail
      && IsDigits(text[|SuccessMark|..|text| - |BatchTail|])
    then Some(Uploaded(Some(DecimalValue(text[|SuccessMark|..|text| - |BatchTail|]))))
    else None
  }

  /** Every reply the bot sends can be told apart from the others and read
      back: success and failure never look alike, a batch reply gives back its
      count and an error reply its message. */
  lemma ReadReplyRoundTrip(count: nat, message: string)
    ensures ReadReply(SingleDone) == Some(Uploaded(None))
    ensures ReadReply(BatchDone(count)) == Some(Uploaded(Some(count)))
    ensures ReadReply(ErrorReply(message)) == Some(Failed(message))
  {
    var text := BatchDone(count);
    var digits := Decimal(count);
    assert text[0] == '✅';
    assert !StartsWith(text, ErrorMark);
    assert text[2] == digits[0];
    assert SingleDone[2] == 'V';
    assert text != SingleDone;
    assert text[|text| - |BatchTail|..] == BatchTail;
    assert text[|SuccessMark|..|text| - |BatchTail|] == digits;
    DecimalRoundTrip(count);
    assert ErrorReply(message)[|ErrorMark|..] == message;
  }
}
