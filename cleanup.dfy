/** `secureCleanup` (main.js:139-148), run when the process is interrupted:
    when `temp` exists, every entry it lists is read, encrypted with the
    configured key under a fresh IV, written back over itself, and
    unlinked. Nothing catches inside it, so the first throw ends it. */
module SecureStore {
  import opened Text
  import opened Hex
  import opened Names
  import opened Messages
  import opened Crypto
  import opened Stages

  /** What ends a cleanup early: `encrypt` refusing the key, or reading a
      listed entry that is not there. */
  datatype Fault = CryptoFault(error: CryptoError) | FsFault(message: string)

  /** The body of the `forEach`: read one entry, encrypt it under `iv`,
      write the result over it and unlink it. */
  function EraseEntry(w: World, name: string, key: Option<seq<byte>>, iv: Iv, cipher: Cipher): (World, Option<Fault>)
  {
    var path := TempPath(name);
    if path !in w.files then (w, Some(FsFault(NoSuchFile("open", path))))
    else match Encrypt(w.files[path], key, iv, cipher)
      case Refused(e) => (w, Some(CryptoFault(e)))
      case Ciphertext(blob) =>
        // The file has just been written, so unlinking it cannot throw.
        (Unlink(World(w.files[path := blob], w.log + [WriteFile(path, blob)]), path).0, None)
  }

  /** The entries `names` of the temp directory, erased one after the other
      until one fails; the `i`-th encryption of the run draws the IV `ivs(i)`. */
  function EraseEach(w: World, names: seq<string>, key: Option<seq<byte>>, ivs: nat -> Iv, cipher: Cipher, next: nat)
    : (World, Option<Fault>)
    decreases |names|
  {
    if names == [] then (w, None)
    else
      var (w1, fault) := EraseEntry(w, names[0], key, ivs(next), cipher);
      if fault.Some? then (w1, fault) else EraseEach(w1, names[1..], key, ivs, cipher, next + 1)
  }

  /** The whole of `secureCleanup`: nothing when `temp` is absent, otherwise
      each entry of `listing`, the directory's entries in the order
      `readdirSync` returns them. */
  function SecureCleanup(w: World, tempExists: bool, listing: seq<string>,
                         key: Option<seq<byte>>, ivs: nat -> Iv, cipher: Cipher): (World, Option<Fault>)
  {
    if !tempExists then (w, None) else EraseEach(w, listing, key, ivs, cipher, 0)
  }

  // ---------------------------------------------------------------------
  // What a cleanup should do

  /** The paths of the listed entries. */
  function ListedPaths(names: seq<string>): set<string>
  {
    set n | n in names :: TempPath(n)
  }

  predicate Distinct(names: seq<string>)
  {
    forall i, j :: 0 <= i < j < |names| ==> names[i] != names[j]
  }

  /** `listing` is what `readdirSync` can return for these files: every
      file once, in some order. */
  predicate IsListing(files: Files, listing: seq<string>)
  {
    Distinct(listing) && ListedPaths(listing) == files.Keys
  }

  /** What the `i`-th listed entry is overwritten with: its IV, then the
      ciphertext of the file as it was before the cleanup. */
  function Sealed(files: Files, names: seq<string>, key: Key, ivs: nat -> Iv, cipher: Cipher, next: nat, i: nat)
    : seq<byte>
    requires i < |names| && TempPath(names[i]) in files
  {
    ivs(next + i) + cipher(key, ivs(next + i), files[TempPath(names[i])])
  }

  /** The calls an undisturbed cleanup makes: for each entry, the write of
      its sealed contents, then its removal. */
  function Erasures(files: Files, names: seq<string>, key: Key, ivs: nat -> Iv, cipher: Cipher, next: nat)
    : seq<Event>
    requires ListedPaths(names) <= files.Keys
    decreases |names|
  {
    if names == [] then []
    else
      assert TempPath(names[0]) in ListedPaths(names);
      assert ListedPaths(names[1..]) <= ListedPaths(names);
      var path := TempPath(names[0]);
      [WriteFile(path, Sealed(files, names, key, ivs, cipher, next, 0)), RemoveFile(path)]
        + Erasures(files, names[1..], key, ivs, cipher, next + 1)
  }

  /** Two listed entries name the same path only when they are the same entry. */
  lemma TempPathInjective(a: string, b: string)
    ensures TempPath(a) == TempPath(b) <==> a == b
  {
    EntryRoundTrip(a, TempPath(b));
    EntryRoundTrip(b, TempPath(a));
  }

  /** With a usable key, one entry that is there is overwritten with its
      IV and ciphertext, then removed, and nothing fails. */
  lemma EntryErased(w: World, name: string, key: Option<seq<byte>>, iv: Iv, cipher: Cipher)
    requires UsableKey(key) && TempPath(name) in w.files
    ensures var path := TempPath(name);
      var blob := iv + cipher(key.value, iv, w.files[path]);
      EraseEntry(w, name, key, iv, cipher) == (World(w.files - {path}, w.log + [WriteFile(path, blob), RemoveFile(path)]), None)
  {
    var path := TempPath(name);
    var blob := iv + cipher(key.value, iv, w.files[path]);
    assert Encrypt(w.files[path], key, iv, cipher) == Ciphertext(blob);
    var written := World(w.files[path := blob], w.log + [WriteFile(path, blob)]);
    assert written.files - {path} == w.files - {path};
    assert written.log + [RemoveFile(path)] == w.log + [WriteFile(path, blob), RemoveFile(path)];
  }

  /** With a usable key, every listed entry that is still there is sealed,
      written back and removed, in listing order, and nothing fails. The
      contents sealed are those of `orig`, the files as the cleanup found them. */
  lemma {:induction false} EraseAll(w: World, orig: Files, names: seq<string>, key: Option<seq<byte>>,
                                    ivs: nat -> Iv, cipher: Cipher, next: nat)
    requires UsableKey(key) && Distinct(names)
    requires forall n :: n in names ==> TempPath(n) in w.files && TempPath(n) in orig
                                        && w.files[TempPath(n)] == orig[TempPath(n)]
    ensures ListedPaths(names) <= orig.Keys
    ensures EraseEach(w, names, key, ivs, cipher, next).1 == None
    ensures EraseEach(w, names, key, ivs, cipher, next).0.files == w.files - ListedPaths(names)
    ensures EraseEach(w, names, key, ivs, cipher, next).0.log == w.log + Erasures(orig, names, key.value, ivs, cipher, next)
    decreases |names|
  {
    if names != [] {
      var path := TempPath(names[0]);
      var blob := ivs(next) + cipher(key.value, ivs(next), w.files[path]);
      var removed := World(w.files - {path}, w.log + [WriteFile(path, blob), RemoveFile(path)]);
      EntryErased(w, names[0], key, ivs(next), cipher);
      forall n | n in names[1..]
        ensures TempPath(n) in removed.files && removed.files[TempPath(n)] == orig[TempPath(n)]
      {
        TempPathInjective(n, names[0]);
      }
      EraseAll(removed, orig, names[1..], key, ivs, cipher, next + 1);
      assert ListedPaths(names) == {path} + ListedPaths(names[1..]);
      assert blob == Sealed(orig, names, key.value, ivs, cipher, next, 0);
    }
  }

  /** With a usable key and a true listing, `secureCleanup` fails nowhere
      and leaves `temp` empty, having overwritten every file with its
      sealed contents just before removing it. */
  lemma CleanupErasesEverything(w: World, listing: seq<string>, key: Option<seq<byte>>, ivs: nat -> Iv, cipher: Cipher)
    requires UsableKey(key) && IsListing(w.files, listing)
    ensures var (w', fault) := SecureCleanup(w, true, listing, key, ivs, cipher);
      && fault == None
      && w'.files == map[]
      && w'.log == w.log + Erasures(w.files, listing, key.value, ivs, cipher, 0)
  {
    EraseAll(w, w.files, listing, key, ivs, cipher, 0);
    assert w.files - w.files.Keys == map[];
  }

  /** Read call by call: the `2i`-th call of an undisturbed cleanup writes
      the `i`-th listed entry with the `i`-th IV in front of the ciphertext of
      its original contents, and the next call removes it. */
  lemma {:induction false} ErasuresAt(files: Files, names: seq<string>, key: Key, ivs: nat -> Iv, cipher: Cipher, next: nat, i: nat)
    requires ListedPaths(names) <= files.Keys && i < |names|
    ensures TempPath(names[i]) in files
    ensures var calls := Erasures(files, names, key, ivs, cipher, next);
      && |calls| == 2 * |names|
      && calls[2 * i] == WriteFile(TempPath(names[i]), ivs(next + i) + cipher(key, ivs(next + i), files[TempPath(names[i])]))
      && calls[2 * i + 1] == RemoveFile(TempPath(names[i]))
    decreases i
  {
    assert TempPath(names[i]) in ListedPaths(names);
    assert ListedPaths(names[1..]) <= ListedPaths(names);
    ErasuresLength(files, names, key, ivs, cipher, next);
    if i > 0 {
      ErasuresAt(files, names[1..], key, ivs, cipher, next + 1, i - 1);
      assert names[1..][i - 1] == names[i];
    }
  }

  lemma {:induction false} ErasuresLength(files: Files, names: seq<string>, key: Key, ivs: nat -> Iv, cipher: Cipher, next: nat)
    requires ListedPaths(names) <= files.Keys
    ensures |Erasures(files, names, key, ivs, cipher, next)| == 2 * |names|
    decreases |names|
  {
    if names != [] {
      assert ListedPaths(names[1..]) <= ListedPaths(names);
      ErasuresLength(files, names[1..], key, ivs, cipher, next + 1);
    }
  }

  /** Every blob the cleanup writes can be read back as a decrypter does:
      its first 16 bytes are the IV it was encrypted under, the rest the ciphertext. */
  lemma SealedCarriesItsIv(files: Files, names: seq<string>, key: Key, ivs: nat -> Iv, cipher: Cipher, next: nat, i: nat)
    requires i < |names| && TempPath(names[i]) in files
    ensures var blob := Sealed(files, names, key, ivs, cipher, next, i);
      |blob| >= 16 && SplitIv(blob) == (ivs(next + i), cipher(key, ivs(next + i), files[TempPath(names[i])]))
  {
    var iv := ivs(next + i);
    var blob := Sealed(files, names, key, ivs, cipher, next, i);
    assert blob[..16] == iv;
  }

  /** A key that is not configured, or not 32 bytes long, makes the very
      first `encrypt` throw: the cleanup stops before writing or removing
      anything, and every file stays as it was, unencrypted. */
  lemma BadKeyChangesNothing(w: World, listing: seq<string>, key: Option<seq<byte>>, ivs: nat -> Iv, cipher: Cipher)
    requires !UsableKey(key) && listing != [] && TempPath(listing[0]) in w.files
    ensures var (w', fault) := SecureCleanup(w, true, listing, key, ivs, cipher);
      && w' == w
      && fault == Some(CryptoFault(if key.None? then KeyMissing else InvalidKeyLength))
  {
  }

  /** On a true listing the key is the only thing that can make a cleanup
      fail, and it fails on the first file or not at all: the cleanup
      succeeds exactly when the key is usable or `temp` is empty, and a
      failed cleanup has changed nothing. */
  lemma CleanupFailsOnlyOnTheKey(w: World, listing: seq<string>, key: Option<seq<byte>>, ivs: nat -> Iv, cipher: Cipher)
    requires IsListing(w.files, listing)
    ensures var (w', fault) := SecureCleanup(w, true, listing, key, ivs, cipher);
      && (fault == None <==> UsableKey(key) || listing == [])
      && (fault != None ==> w' == w)
  {
    if UsableKey(key) {
      CleanupErasesEverything(w, listing, key, ivs, cipher);
    } else if listing != [] {
      assert TempPath(listing[0]) in ListedPaths(listing);
      BadKeyChangesNothing(w, listing, key, ivs, cipher);
    }
  }

  /** Nothing happens, and nothing can fail, when `temp` is absent or lists
      no entry. */
  lemma NothingToErase(w: World, tempExists: bool, listing: seq<string>, key: Option<seq<byte>>, ivs: nat -> Iv, cipher: Cipher)
    requires !tempExists || listing == []
    ensures SecureCleanup(w, tempExists, listing, key, ivs, cipher) == (w, None)
  {
  }
}
