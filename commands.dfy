/** The command router of the message handler (main.js:104-105, 118-119):
    `!s <url>` runs one job, `!l` followed by one URL per line runs a batch,
    and any other message is ignored. */
module Commands {
  import opened Text

  const SinglePrefix := "!s "
  const BatchPrefix := "!l"

  datatype Command = SingleJob(url: string) | BatchJob(urls: seq<string>) | NotACommand

  /** The handler tests the two prefixes one after the other; no body has
      both, so at most one branch runs. The single job's URL is
      `body.split(' ')[1]`, which exists because the third character is a
      space; the batch's URLs are `body.split('\n').slice(1)`. */
  function ParseCommand(body: string): (cmd: Command)
    ensures cmd.SingleJob? <==> StartsWith(body, SinglePrefix)
    ensures cmd.BatchJob? <==> StartsWith(body, BatchPrefix)
  {
    if StartsWith(body, SinglePrefix) then
      assert body == "!s" + [' '] + body[3..];
      SplitAtFirstSeparator("!s", body[3..], ' ');
      SingleJob(Split(body, ' ')[1])
    else if StartsWith(body, BatchPrefix) then
      BatchJob(Split(body, '\n')[1..])
    else
      NotACommand
  }

  /** The single job's URL is the first space-free token after `!s `: it
      ends at the next space or at the end of the body (a newline does not end it). */
  lemma SingleUrlIsFirstToken(url: string, rest: string)
    requires ' ' !in url
    requires rest == [] || rest[0] == ' '
    ensures ParseCommand(SinglePrefix + url + rest) == SingleJob(url)
  {
    var body := SinglePrefix + url + rest;
    assert body[3..] == url + rest;
    assert body == "!s" + [' '] + (url + rest);
    SplitAtFirstSeparator("!s", url + rest, ' ');
    if rest == [] {
      assert url + rest == url;
      SplitWithoutSeparator(url, ' ');
    } else {
      assert url + rest == url + [' '] + rest[1..];
      SplitAtFirstSeparator(url, rest[1..], ' ');
    }
  }

  /** The batch's URLs are exactly the lines after the header line, in
      order, blank lines included. */
  lemma BatchUrlsAreLines(header: string, lines: seq<string>)
    requires StartsWith(header, BatchPrefix) && '\n' !in header
    requires |lines| >= 1 && forall i :: 0 <= i < |lines| ==> '\n' !in lines[i]
    ensures ParseCommand(header + "\n" + Join(lines, '\n')) == BatchJob(lines)
  {
    var body := header + "\n" + Join(lines, '\n');
    assert body[..2] == header[..2];
    JoinSplit(lines, '\n');
    SplitAtFirstSeparator(header, Join(lines, '\n'), '\n');
    assert ([header] + lines)[1..] == lines;
  }

  /** A header with no line after it is a batch of no URLs. */
  lemma BatchWithoutLines(body: string)
    requires StartsWith(body, BatchPrefix) && '\n' !in body
    ensures ParseCommand(body) == BatchJob([])
  {
    SplitWithoutSeparator(body, '\n');
  }

  /** A batch has one URL per newline in the body, none dropped. */
  lemma BatchSize(body: string)
    requires StartsWith(body, BatchPrefix)
    ensures ParseCommand(body).BatchJob?
    ensures |ParseCommand(body).urls| == multiset(body)['\n']
  {
    SplitCount(body, '\n');
  }
}
