/** The shape of `encrypt` (main.js:150-154): a fresh 16-byte IV followed by
    the AES-256-CBC ciphertext of the data. The cipher itself is a parameter;
    only the key checks that make Node throw before encrypting are modelled. */
module Crypto {
  import opened Text
  import opened Hex

  /** An AES-256 key: 32 bytes. */
  type Key = k: seq<byte> | |k| == 32 witness seq(32, _ => 0)

  /** A CBC initialisation vector: 16 bytes (`crypto.randomBytes(16)`). */
  type Iv = v: seq<byte> | |v| == 16 witness seq(16, _ => 0)

  /** `cipher.update(data)` followed by `cipher.final()` for a key and an IV. */
  type Cipher = (Key, Iv, seq<byte>) -> seq<byte>

  /** Why Node refuses to encrypt: `Buffer.from(undefined)` when the key is
      not configured, or `createCipheriv` with a key that is not 32 bytes. */
  datatype CryptoError = KeyMissing | InvalidKeyLength

  datatype Encrypted = Ciphertext(blob: seq<byte>) | Refused(error: CryptoError)

  /** The configured key, as bytes, is usable for AES-256. */
  predicate UsableKey(key: Option<seq<byte>>)
  {
    key.Some? && |key.value| == 32
  }

  /** Splits a blob written by `encrypt` into its IV and its ciphertext, as a decrypter does. */
  function SplitIv(blob: seq<byte>): (parts: (Iv, seq<byte>))
    requires |blob| >= 16
    ensures parts.0 + parts.1 == blob
  {
    (blob[..16], blob[16..])
  }

  function Encrypt(data: seq<byte>, key: Option<seq<byte>>, iv: Iv, cipher: Cipher): (r: Encrypted)
    ensures r.Ciphertext? <==> UsableKey(key)
    ensures key.None? ==> r == Refused(KeyMissing)
    ensures key.Some? && |key.value| != 32 ==> r == Refused(InvalidKeyLength)
    ensures r.Ciphertext? ==> |r.blob| >= 16 && SplitIv(r.blob) == (iv, cipher(key.value, iv, data))
  {
    match key
    case None => Refused(KeyMissing)
    case Some(k) => if |k| != 32 then Refused(InvalidKeyLength) else Ciphertext(iv + cipher(k, iv, data))
  }
}
