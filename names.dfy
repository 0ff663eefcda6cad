/** Working-file names. Both stages name their output after 8 random bytes
    rendered in hex (`crypto.randomBytes(8).toString('hex')`) inside the
    `temp` directory: `temp/<16 hex>.mp4` for a downloaded video and
    `temp/<16 hex>_processed.mp4` for its re-encoded copy. */
module Names {
  import opened Text
  import opened Hex

  /** A string of 16 lower-case hex digits: what `toString('hex')` makes of 8 bytes. */
  predicate IsToken(s: string)
  {
    |s| == 16 && forall i :: 0 <= i < |s| ==> IsHexDigit(s[i])
  }

  type Token = s: string | IsToken(s) witness "0000000000000000"

  /** The rendering of 8 random bytes is a token, and every token is the
      rendering of exactly one choice of 8 bytes; so a name can be modelled
      by its token without losing or adding any possibility. */
  lemma TokensAreRenderings(bytes: seq<byte>, t: Token)
    requires |bytes| == 8
    ensures IsToken(ToHex(bytes))
    ensures FromHex(t).Some? && |FromHex(t).value| == 8 && ToHex(FromHex(t).value) == t
    ensures ToHex(bytes) == t <==> bytes == FromHex(t).value
  {
    HexRoundTrip(bytes);
    HexStringRoundTrip(t);
  }

  const TempDir := "temp/"

  /** The path of an entry of the temp directory. */
  function TempPath(name: string): string
  {
    TempDir + name
  }

  /** The entry of the temp directory a path names, if it names one. */
  function EntryOf(path: string): Option<string>
  {
    if StartsWith(path, TempDir) then Some(path[|TempDir|..]) else None
  }

  /** `EntryOf` reads back the name a path was made from, and accepts
      exactly the paths inside the temp directory. */
  lemma EntryRoundTrip(name: string, path: string)
    ensures StartsWith(TempPath(name), TempDir)
    ensures EntryOf(TempPath(name)) == Some(name)
    ensures EntryOf(path).Some? <==> StartsWith(path, TempDir)
    ensures EntryOf(path).Some? ==> TempPath(EntryOf(path).value) == path
  {
    assert TempPath(name)[..|TempDir|] == TempDir;
    assert TempPath(name)[|TempDir|..] == name;
    if StartsWith(path, TempDir) {
      assert path == path[..|TempDir|] + path[|TempDir|..];
    }
  }

  const RawSuffix := ".mp4"
  const ProcessedSuffix := "_processed.mp4"

  /** Name of the file `downloadTikTok` writes. */
  function RawName(t: Token): string
  {
    t + RawSuffix
  }

  /** Name of the file `processVideo` writes. */
  function ProcessedName(t: Token): string
  {
    t + ProcessedSuffix
  }

  /** Path of the file `downloadTikTok` writes. */
  function RawPath(t: Token): string
  {
    TempPath(RawName(t))
  }

  /** Path of the file `processVideo` writes. */
  function ProcessedPath(t: Token): string
  {
    TempPath(ProcessedName(t))
  }

  datatype Kind = Raw | Processed

  /** Reads a working-file name back into its kind and token. */
  function ParseName(name: string): Option<(Kind, Token)>
  {
    if |name| < 16 || !IsToken(name[..16]) then None
    else if name[16..] == RawSuffix then Some((Raw, name[..16]))
    else if name[16..] == ProcessedSuffix then Some((Processed, name[..16]))
    else None
  }

  /** Every working-file name is 16 hex digits followed by its suffix, and
      reading it back gives the kind and the token it was made from. */
  lemma NameRoundTrip(t: Token)
    ensures |RawName(t)| == 20 && |ProcessedName(t)| == 30
    ensures ParseName(RawName(t)) == Some((Raw, t))
    ensures ParseName(ProcessedName(t)) == Some((Processed, t))
  {
    assert RawName(t)[..16] == t && RawName(t)[16..] == RawSuffix;
    assert ProcessedName(t)[..16] == t && ProcessedName(t)[16..] == ProcessedSuffix;
  }

  /** A downloaded file and a processed file never share a name, and names
      of one kind collide only when their tokens do. */
  lemma NamesDistinct(a: Token, b: Token)
    ensures RawName(a) != ProcessedName(b)
    ensures RawName(a) == RawName(b) <==> a == b
    ensures ProcessedName(a) == ProcessedName(b) <==> a == b
  {
    NameRoundTrip(a);
    NameRoundTrip(b);
  }

  /** The same holds of the paths: the temp directory prefix keeps names apart. */
  lemma PathsDistinct(a: Token, b: Token)
    ensures RawPath(a) != ProcessedPath(b)
    ensures RawPath(a) == RawPath(b) <==> a == b
    ensures ProcessedPath(a) == ProcessedPath(b) <==> a == b
  {
    NamesDistinct(a, b);
    assert RawPath(a)[|TempDir|..] == RawName(a);
    assert RawPath(b)[|TempDir|..] == RawName(b);
    assert ProcessedPath(a)[|TempDir|..] == ProcessedName(a);
    assert ProcessedPath(b)[|TempDir|..] == ProcessedName(b);
  }
}
