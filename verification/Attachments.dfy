/** Encrypted attachments: data is encrypted and hashed chunk by chunk. */
module Attachments {
  import opened Wrappers
  import opened ByteStrings
  import Base64

  type Digest = b: Bytes | |b| == 32 witness seq(32, _ => 0)

  const CHUNK_SIZE: nat := 4 * 1024

  /** The keystream of a key, a prefix and an initial counter, and the hash. */
  datatype Crypto = Crypto(keystream: (Bytes, Bytes, nat, nat) -> byte, sha256: Bytes -> Digest)

  /** The part of the info dictionary that decryption needs. */
  datatype Info = Info(key: string, iv: string, sha256: string)

  datatype Error = BadHashEncoding | MismatchedHash | BadKeyEncoding | BadIvEncoding | UnusableKey

  function Stream(c: Crypto, key: Bytes, prefix: Bytes, counter: nat): nat -> byte {
    (i: nat) => c.keystream(key, prefix, counter, i)
  }

  function Join(chunks: seq<Bytes>): Bytes {
    if chunks == [] then [] else Join(chunks[..|chunks| - 1]) + chunks[|chunks| - 1]
  }

  /** `_get_decryption_info_dict`. */
  function DecryptionInfo(key: Bytes, iv: Bytes, digest: Digest): Info {
    Info(Base64.Encode(key, true), Base64.Encode(iv + [0, 0, 0, 0, 0, 0, 0, 0], false), Base64.Encode(digest, false))
  }

  /** Whether the cipher takes a key, a prefix and a counter: AES key sizes, and a block of 16 bytes. */
  predicate Usable(key: Bytes, prefix: Bytes, counter: nat) {
    (|key| == 16 || |key| == 24 || |key| == 32) && |prefix| == 8 && Fits(counter, 8)
  }

  /** `decrypt_attachment`. */
  function Decrypt(c: Crypto, ciphertext: Bytes, info: Info): Result<Bytes, Error> {
    match Base64.Decode(info.sha256)
    case None => Err(BadHashEncoding)
    case Some(expected) =>
      if c.sha256(ciphertext) != expected then Err(MismatchedHash)
      else match Base64.Decode(info.key)
        case None => Err(BadKeyEncoding)
        case Some(key) =>
          match Base64.Decode(info.iv)
          case None => Err(BadIvEncoding)
          case Some(iv) =>
            var prefix, counter := Slice(iv, 0, 8), FromBytes(Slice(iv, 8, |iv|));
            if !Usable(key, prefix, counter) then Err(UnusableKey)
            else Ok(Cipher(Stream(c, key, prefix, counter), ciphertext, 0))
  }

  lemma CipherConcat(keystream: nat -> byte, a: Bytes, b: Bytes, position: nat)
    ensures Cipher(keystream, a + b, position) == Cipher(keystream, a, position) + Cipher(keystream, b, position + |a|)
  {
    var left := Cipher(keystream, a + b, position);
    var right := Cipher(keystream, a, position) + Cipher(keystream, b, position + |a|);
    assert |left| == |right|;
    forall i | 0 <= i < |left| ensures left[i] == right[i] {
      if i >= |a| {
        assert (a + b)[i] == b[i - |a|] && position + i == position + |a| + (i - |a|);
      }
    }
  }

  lemma JoinAppend(chunks: seq<Bytes>, chunk: Bytes)
    ensures Join(chunks + [chunk]) == Join(chunks) + chunk
  {
    assert (chunks + [chunk])[..|chunks|] == chunks;
  }

  /** A cipher object, which remembers its position in the keystream. */
  class CtrCipher {
    const keystream: nat -> byte
    var position: nat

    constructor (keystream: nat -> byte)
      ensures this.keystream == keystream && position == 0
    {
      this.keystream, position := keystream, 0;
    }

    method Encrypt(chunk: Bytes) returns (r: Bytes)
      modifies this
      ensures r == Cipher(keystream, chunk, old(position)) && position == old(position) + |chunk|
    {
      r := Cipher(keystream, chunk, position);
      position := position + |chunk|;
    }
  }

  /** A hash object, which remembers what it was fed. */
  class Sha256 {
    const hash: Bytes -> Digest
    var fed: Bytes

    constructor (hash: Bytes -> Digest)
      ensures this.hash == hash && fed == []
    {
      this.hash, fed := hash, [];
    }

    method Update(chunk: Bytes)
      modifies this
      ensures fed == old(fed) + chunk
    {
      fed := fed + chunk;
    }

    function CurrentDigest(): Digest
      reads this
    {
      hash(fed)
    }
  }

  /** The generator, run to its end: the encrypted chunks, and the info for decryption. */
  method EncryptChunks(c: Crypto, key: Bytes, iv: Bytes, data: seq<Bytes>) returns (chunks: seq<Bytes>, info: Info)
    ensures |chunks| == |data| && forall i :: 0 <= i < |data| ==> |chunks[i]| == |data[i]|
    ensures Join(chunks) == Cipher(Stream(c, key, iv, 0), Join(data), 0)
    ensures info == DecryptionInfo(key, iv, c.sha256(Join(chunks)))
  {
    var cipher := new CtrCipher(Stream(c, key, iv, 0));
    var sha256 := new Sha256(c.sha256);
    chunks := [];
    for n := 0 to |data|
      invariant |chunks| == n && forall i :: 0 <= i < n ==> |chunks[i]| == |data[i]|
      invariant cipher.position == |Join(data[..n])| && sha256.fed == Join(chunks)
      invariant Join(chunks) == Cipher(Stream(c, key, iv, 0), Join(data[..n]), 0)
    {
      var chunk := cipher.Encrypt(data[n]);
      sha256.Update(chunk);
      assert data[..n + 1] == data[..n] + [data[n]];
      JoinAppend(data[..n], data[n]);
      JoinAppend(chunks, chunk);
      CipherConcat(Stream(c, key, iv, 0), Join(data[..n]), data[n], 0);
      chunks := chunks + [chunk];
    }
    assert data[..|data|] == data;
    info := DecryptionInfo(key, iv, sha256.CurrentDigest());
  }

  /** `encrypt_attachment`: everything in one chunk. */
  method EncryptAttachment(c: Crypto, key: Bytes, iv: Bytes, plaintext: Bytes) returns (ciphertext: Bytes, info: Info)
    ensures ciphertext == Cipher(Stream(c, key, iv, 0), plaintext, 0)
    ensures info == DecryptionInfo(key, iv, c.sha256(ciphertext))
  {
    var chunks: seq<Bytes>;
    chunks, info := EncryptChunks(c, key, iv, [plaintext]);
    JoinAppend([], plaintext);
    ciphertext := Join(chunks);
  }

  /** The splitter of the asynchronous variant: full chunks, and what is left over. */
  method SplitData(data: Bytes, size: nat) returns (chunks: seq<Bytes>)
    requires size > 0
    ensures Join(chunks) == data
    ensures forall i :: 0 <= i < |chunks| ==> 0 < |chunks[i]| <= size
    ensures forall i :: 0 <= i < |chunks| - 1 ==> |chunks[i]| == size
  {
    chunks := [];
    var i := 0;
    while i < |data|
      invariant 0 <= i
      invariant Join(chunks) == data[..Min(i, |data|)]
      invariant forall k :: 0 <= k < |chunks| ==> 0 < |chunks[k]| <= size
      invariant i < |data| ==> forall k :: 0 <= k < |chunks| ==> |chunks[k]| == size
      invariant forall k :: 0 <= k < |chunks| - 1 ==> |chunks[k]| == size
    {
      var chunk := Slice(data, i, i + size);
      JoinAppend(chunks, chunk);
      assert data[..Min(i + size, |data|)] == data[..i] + chunk;
      chunks := chunks + [chunk];
      i := i + size;
    }
    assert data[..|data|] == data;
  }

  /** The asynchronous variant for data that is a byte string. */
  method EncryptSplit(c: Crypto, key: Bytes, iv: Bytes, data: Bytes) returns (ciphertext: Bytes, info: Info)
    ensures ciphertext == Cipher(Stream(c, key, iv, 0), data, 0)
    ensures info == DecryptionInfo(key, iv, c.sha256(ciphertext))
  {
    var split := SplitData(data, CHUNK_SIZE);
    var chunks: seq<Bytes>;
    chunks, info := EncryptChunks(c, key, iv, split);
    ciphertext := Join(chunks);
  }

  /**
   * However the plaintext was split, decrypting the joined ciphertext with the info that came
   * with it gives back the plaintext.
   */
  lemma DecryptGivesBack(c: Crypto, key: Bytes, iv: Bytes, plaintext: Bytes)
    requires |key| == 32 && |iv| == 8
    ensures
      var ciphertext := Cipher(Stream(c, key, iv, 0), plaintext, 0);
      Decrypt(c, ciphertext, DecryptionInfo(key, iv, c.sha256(ciphertext))) == Ok(plaintext)
  {
    var stream := Stream(c, key, iv, 0);
    var ciphertext := Cipher(stream, plaintext, 0);
    var zeros: Bytes := [0, 0, 0, 0, 0, 0, 0, 0];
    Base64.DecodeEncode(key, true);
    Base64.DecodeEncode(iv + zeros, false);
    Base64.DecodeEncode(c.sha256(ciphertext), false);
    assert Slice(iv + zeros, 0, 8) == iv && Slice(iv + zeros, 8, 16) == zeros;
    ZeroBytes();
    CipherTwice(stream, plaintext, 0);
    hide Base64.Decode, Base64.Encode, Fits, FromBytes, Slice, Cipher;
  }

  /** What the info dictionary holds: the key in the URL-safe alphabet, the whole counter block, and the hash. */
  lemma InfoHolds(key: Bytes, iv: Bytes, digest: Digest)
    ensures
      var info := DecryptionInfo(key, iv, digest);
      && Base64.Decode(info.key) == Some(key) && '+' !in info.key && '/' !in info.key
      && Base64.Decode(info.iv) == Some(iv + [0, 0, 0, 0, 0, 0, 0, 0])
      && Base64.Decode(info.sha256) == Some(digest)
  {
    Base64.DecodeEncode(key, true);
    Base64.DecodeEncode(iv + [0, 0, 0, 0, 0, 0, 0, 0], false);
    Base64.DecodeEncode(digest, false);
    Base64.UrlSafeDigits(Base64.Sextets(key));
    hide Base64.Decode, Base64.Digits, Base64.Sextets;
  }

  lemma ZeroBytes()
    ensures FromBytes([0, 0, 0, 0, 0, 0, 0, 0]) == 0 && Fits(0, 8)
  {
    var zeros: Bytes := [0, 0, 0, 0, 0, 0, 0, 0];
    assert zeros == ToBytes(0, 8) by {
      assert ToBytes(0, 4) == [0, 0, 0, 0];
      assert ToBytes(0, 8) == ToBytes(0, 4) + [0, 0, 0, 0];
    }
    assert Fits(0, 4);
    FromToBytes(0, 8);
  }

  /** Nothing is decrypted unless the hash of the ciphertext is the expected one. */
  lemma DecryptOnlyWithHash(c: Crypto, ciphertext: Bytes, info: Info)
    ensures Decrypt(c, ciphertext, info).Ok? ==> Base64.Decode(info.sha256) == Some(c.sha256(ciphertext))
    ensures Decrypt(c, ciphertext, info) == Err(MismatchedHash) <==>
            Base64.Decode(info.sha256).Some? && Base64.Decode(info.sha256) != Some(c.sha256(ciphertext))
  {
  }
}
