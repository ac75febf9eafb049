/** Encrypted exports of room keys ("Key exports" in the Matrix Client-Server API). */
module KeyExport {
  import opened Wrappers
  import opened ByteStrings
  import Base64
  import opened Sequences

  const HEADER := "-----BEGIN MEGOLM SESSION DATA-----"
  const FOOTER := "-----END MEGOLM SESSION DATA-----"

  type DerivedKey = b: Bytes | |b| == 64 witness seq(64, _ => 0)
  type Digest = b: Bytes | |b| == 32 witness seq(32, _ => 0)

  /** The key derivation, the MAC, and the keystream of a key and initial counter. */
  datatype Crypto = Crypto(
    derive: (string, Bytes, nat) -> DerivedKey, hmac: (Bytes, Bytes) -> Digest, keystream: (Bytes, nat, nat) -> byte)

  datatype Error = CountTooLarge | WrongFormat | InvalidBase64 | EmptyPayload | UnsupportedVersion | WrongMac

  const BIT_63: nat := 0x8000_0000_0000_0000

  /** `iv &= ~(1 << 63)`. */
  function ClearBit63(n: nat): (r: nat)
    ensures r <= n && r / BIT_63 % 2 == 0 && (r == n || r + BIT_63 == n)
  {
    if n / BIT_63 % 2 == 1 then n - BIT_63 else n
  }

  function Keystream(c: Crypto, key: Bytes, iv: nat): nat -> byte {
    (i: nat) => c.keystream(key, iv, i)
  }

  /** Version, salt, initial counter, round count and ciphertext. */
  function Body(c: Crypto, data: Bytes, passphrase: string, salt: Bytes, iv: Bytes, count: Bytes): Bytes {
    var key := c.derive(passphrase, salt, FromBytes(count));
    [1] + salt + iv + count + Cipher(Keystream(c, key[..32], FromBytes(iv)), data, 0)
  }

  /** The payload of an export: the body and its MAC. */
  function Seal(c: Crypto, data: Bytes, passphrase: string, salt: Bytes, iv: Bytes, count: Bytes): Bytes {
    var body := Body(c, data, passphrase, salt, iv, count);
    body + c.hmac(c.derive(passphrase, salt, FromBytes(count))[32..64], body)
  }

  /** `encrypt`, for the random bytes it draws. */
  function Encrypt(c: Crypto, data: Bytes, passphrase: string, rounds: nat, salt: Bytes, random: Bytes)
    : Result<string, Error>
  {
    if Fits(rounds, 4) then
      var iv := ToBytes(ClearBit63(FromBytes(random)), 16);
      Ok(Base64.Encode(Seal(c, data, passphrase, salt, iv, ToBytes(rounds, 4)), false))
    else Err(CountTooLarge)
  }

  /** What `decrypt` does with the decoded payload. */
  function Open(c: Crypto, p: Bytes, passphrase: string): Result<Bytes, Error> {
    if p == [] then Err(EmptyPayload)
    else if p[0] != 1 then Err(UnsupportedVersion)
    else
      var salt, iv, count := Slice(p, 1, 17), FromBytes(Slice(p, 17, 33)), FromBytes(Slice(p, 33, 37));
      var key := c.derive(passphrase, salt, count);
      if c.hmac(key[32..64], Slice(p, 0, -32)) != Slice(p, -32, |p|) then Err(WrongMac)
      else Ok(Cipher(Keystream(c, key[..32], iv), Slice(p, 37, -32), 0))
  }

  function Decrypt(c: Crypto, text: string, passphrase: string): Result<Bytes, Error> {
    match Base64.Decode(text)
    case None => Err(InvalidBase64)
    case Some(p) => Open(c, p, passphrase)
  }

  /** What ends up in the file. */
  function Save(c: Crypto, data: Bytes, passphrase: string, rounds: nat, salt: Bytes, random: Bytes)
    : Result<string, Error>
  {
    match Encrypt(c, data, passphrase, rounds, salt, random)
    case Err(error) => Err(error)
    case Ok(text) => Ok(HEADER + "\n" + text + "\n" + FOOTER)
  }

  function WithoutNewlines(s: string): string {
    if s == "" then "" else (if s[0] == '\n' then "" else [s[0]]) + WithoutNewlines(s[1..])
  }

  predicate StartsWith(s: string, prefix: string) {
    |prefix| <= |s| && s[..|prefix|] == prefix
  }

  predicate EndsWith(s: string, suffix: string) {
    |suffix| <= |s| && s[|s| - |suffix|..] == suffix
  }

  function RemovePrefix(s: string, prefix: string): string {
    if StartsWith(s, prefix) then s[|prefix|..] else s
  }

  function RemoveSuffix(s: string, suffix: string): string {
    if EndsWith(s, suffix) then s[..|s| - |suffix|] else s
  }

  function Read(c: Crypto, file: string, passphrase: string): Result<Bytes, Error> {
    var text := WithoutNewlines(file);
    if !StartsWith(text, HEADER) || !EndsWith(text, FOOTER) then Err(WrongFormat)
    else Decrypt(c, RemoveSuffix(RemovePrefix(text, HEADER), FOOTER), passphrase)
  }

  lemma {:induction false} NoNewlines(s: string)
    requires '\n' !in s
    ensures WithoutNewlines(s) == s
  {
    if s == "" {
    } else {
      NoNewlines(s[1..]);
      assert s == [s[0]] + s[1..];
    }
  }

  lemma {:induction false} WithoutNewlinesConcat(a: string, b: string)
    ensures WithoutNewlines(a + b) == WithoutNewlines(a) + WithoutNewlines(b)
  {
    if a == "" {
      assert a + b == b;
    } else {
      assert (a + b)[0] == a[0] && (a + b)[1..] == a[1..] + b;
      WithoutNewlinesConcat(a[1..], b);
    }
  }

  lemma LinesJoined(header: string, text: string, footer: string)
    requires '\n' !in header && '\n' !in text && '\n' !in footer
    ensures WithoutNewlines(header + "\n" + text + "\n" + footer) == header + text + footer
  {
    WithoutNewlinesConcat(header + "\n" + text + "\n", footer);
    WithoutNewlinesConcat(header + "\n" + text, "\n");
    WithoutNewlinesConcat(header + "\n", text);
    WithoutNewlinesConcat(header, "\n");
    NoNewlines(header);
    NoNewlines(footer);
    NoNewlines(text);
    assert "\n"[1..] == "" && WithoutNewlines("\n") == "";
    assert header + "" == header && header + text + "" == header + text;
  }

  lemma Unframed(header: string, text: string, footer: string)
    ensures
      var s := header + text + footer;
      StartsWith(s, header) && EndsWith(s, footer) && RemoveSuffix(RemovePrefix(s, header), footer) == text
  {
    var s := header + text + footer;
    assert s[..|header|] == header && s[|header|..] == text + footer;
    assert s[|s| - |footer|..] == footer;
    assert (text + footer)[|text|..] == footer && (text + footer)[..|text|] == text;
  }

  /** Reading a file that holds a framed text hands on exactly that text. */
  lemma FramingRoundTrip(c: Crypto, text: string, passphrase: string)
    requires '\n' !in text
    ensures Read(c, HEADER + "\n" + text + "\n" + FOOTER, passphrase) == Decrypt(c, text, passphrase)
  {
    assert '\n' !in HEADER && '\n' !in FOOTER;
    LinesJoined(HEADER, text, FOOTER);
    Unframed(HEADER, text, FOOTER);
    hide WithoutNewlines, StartsWith, EndsWith, RemovePrefix, RemoveSuffix, Decrypt;
  }

  /** The layout of a payload: where `decrypt` looks is where `encrypt` wrote. */
  lemma Layout(salt: Bytes, iv: Bytes, count: Bytes, text: Bytes, mac: Bytes)
    requires |salt| == 16 && |iv| == 16 && |count| == 4 && |mac| == 32
    ensures
      var body: Bytes := [1] + salt + iv + count + text;
      var p := body + mac;
      && p[0] == 1 && Slice(p, 1, 17) == salt && Slice(p, 17, 33) == iv && Slice(p, 33, 37) == count
      && Slice(p, 37, -32) == text && Slice(p, 0, -32) == body && Slice(p, -32, |p|) == mac
  {
    var body: Bytes := [1] + salt + iv + count + text;
    var p := body + mac;
    assert |body| == 37 + |text|;
    assert p[1..17] == salt;
    assert p[17..33] == iv;
    assert p[33..37] == count;
    assert p[37..|p| - 32] == text;
    assert p[0..|p| - 32] == body;
    assert p[|p| - 32..|p|] == mac;
  }

  /**
   * A payload of at least 69 bytes opens to `data` exactly when it is the seal of `data` under
   * its own salt, counter and count.
   */
  lemma OpensIffSealed(c: Crypto, p: Bytes, passphrase: string, data: Bytes)
    requires |p| >= 69
    ensures Open(c, p, passphrase) == Ok(data) <==> p == Seal(c, data, passphrase, p[1..17], p[17..33], p[33..37])
  {
    var salt, iv, count, text, mac := p[1..17], p[17..33], p[33..37], p[37..|p| - 32], p[|p| - 32..];
    var key := c.derive(passphrase, salt, FromBytes(count));
    var stream := Keystream(c, key[..32], FromBytes(iv));
    if p[0] == 1 {
      assert p == [1] + salt + iv + count + text + mac;
      Layout(salt, iv, count, text, mac);
    }
    if Open(c, p, passphrase) == Ok(data) {
      CipherTwice(stream, text, 0);
      assert Body(c, data, passphrase, salt, iv, count) == [1] + salt + iv + count + text;
    }
    if p == Seal(c, data, passphrase, salt, iv, count) {
      var cipher := Cipher(stream, data, 0);
      var body := Body(c, data, passphrase, salt, iv, count);
      assert p[0] == 1;
      Layout(salt, iv, count, cipher, c.hmac(key[32..64], body));
      CipherTwice(stream, data, 0);
    }
  }

  /**
   * In a shorter payload the slices overlap; it opens to nothing but the empty data, and only
   * with a MAC of its own front part.
   */
  lemma ShortPayloadIsEmpty(c: Crypto, p: Bytes, passphrase: string)
    requires |p| < 69
    ensures Open(c, p, passphrase).Ok? ==> Open(c, p, passphrase) == Ok([]) && |p| >= 32
    ensures Open(c, p, passphrase).Ok? <==>
            |p| >= 32 && p[0] == 1
            && p[|p| - 32..] == c.hmac(c.derive(passphrase, Slice(p, 1, 17), FromBytes(Slice(p, 33, 37)))[32..64],
                 p[..|p| - 32])
  {
    if |p| >= 32 {
      assert Slice(p, -32, |p|) == p[|p| - 32..] && Slice(p, 0, -32) == p[..|p| - 32];
    } else {
      assert |Slice(p, -32, |p|)| < 32;
    }
  }

  lemma {:induction false} FitsMonotone(m: nat, n: nat, length: nat)
    requires m <= n && Fits(n, length)
    ensures Fits(m, length)
  {
    if length == 0 {
    } else {
      FitsMonotone(m / 256, n / 256, length - 1);
    }
  }

  /**
   * Round trip: reading a saved export with its passphrase gives back the data, and saving
   * succeeds exactly for round counts below 2^32.
   */
  lemma ExportRoundTrip(c: Crypto, data: Bytes, passphrase: string, rounds: nat, salt: Bytes, random: Bytes)
    requires |salt| == 16 && |random| == 16
    ensures
      var file := Save(c, data, passphrase, rounds, salt, random);
      && (file.Ok? <==> rounds < 0x1_0000_0000)
      && (file.Ok? ==> Read(c, file.value, passphrase) == Ok(data))
  {
    FitsFourBytes(rounds);
    if Fits(rounds, 4) {
      var iv, count := ToBytes(ClearBit63(FromBytes(random)), 16), ToBytes(rounds, 4);
      var p := Seal(c, data, passphrase, salt, iv, count);
      Base64.DecodeEncode(p, false);
      FramingRoundTrip(c, Base64.Encode(p, false), passphrase);
      var key := c.derive(passphrase, salt, FromBytes(count));
      var body := Body(c, data, passphrase, salt, iv, count);
      Layout(salt, iv, count, Cipher(Keystream(c, key[..32], FromBytes(iv)), data, 0), c.hmac(key[32..64], body));
      CipherTwice(Keystream(c, key[..32], FromBytes(iv)), data, 0);
    }
  }

  /**
   * The numbers in the payload are the ones that were used: the counter has bit 63 cleared, the
   * count is the caller's.
   */
  lemma SealedNumbers(rounds: nat, random: Bytes)
    requires |random| == 16 && rounds < 0x1_0000_0000
    ensures
      var iv := ClearBit63(FromBytes(random));
      FromBytes(ToBytes(iv, 16)) == iv && iv / BIT_63 % 2 == 0 && FromBytes(ToBytes(rounds, 4)) == rounds
  {
    FitsFourBytes(rounds);
    FromToBytes(rounds, 4);
    ToFromBytes(random);
    FitsMonotone(ClearBit63(FromBytes(random)), FromBytes(random), 16);
    FromToBytes(ClearBit63(FromBytes(random)), 16);
  }

  /** A saved export has the three lines that other clients read. */
  lemma SavedLines(c: Crypto, data: Bytes, passphrase: string, rounds: nat, salt: Bytes, random: Bytes)
    ensures
      var file := Save(c, data, passphrase, rounds, salt, random);
      var text := Encrypt(c, data, passphrase, rounds, salt, random);
      && (file.Ok? <==> text.Ok?)
      && (file.Ok? ==> file.value == "-----BEGIN MEGOLM SESSION DATA-----\n" + text.value
                                     + "\n-----END MEGOLM SESSION DATA-----")
  {
    var text := Encrypt(c, data, passphrase, rounds, salt, random);
    hide Encrypt;
    if text.Ok? {
      Reassociate(HEADER + "\n" + text.value, "\n", FOOTER);
      assert HEADER + "\n" == "-----BEGIN MEGOLM SESSION DATA-----\n";
      assert "\n" + FOOTER == "\n-----END MEGOLM SESSION DATA-----";
    }
  }

  /** What the payload of an export starts with: version, salt, counter and round count, the counter without bit 63. */
  lemma PayloadOf(c: Crypto, data: Bytes, passphrase: string, rounds: nat, salt: Bytes, random: Bytes)
    returns (p: Bytes)
    requires |salt| == 16 && |random| == 16 && rounds < 0x1_0000_0000
    ensures Encrypt(c, data, passphrase, rounds, salt, random).Ok?
    ensures Base64.Decode(Encrypt(c, data, passphrase, rounds, salt, random).value) == Some(p)
    ensures |p| == 69 + |data| && p[0] == 1 && p[1..17] == salt && FromBytes(p[33..37]) == rounds
    ensures
      var given, counter := FromBytes(random), FromBytes(p[17..33]);
      counter / 0x8000_0000_0000_0000 % 2 == 0 && (counter == given || counter + 0x8000_0000_0000_0000 == given)
  {
    FitsFourBytes(rounds);
    SealedNumbers(rounds, random);
    var iv, count := ToBytes(ClearBit63(FromBytes(random)), 16), ToBytes(rounds, 4);
    p := Seal(c, data, passphrase, salt, iv, count);
    Base64.DecodeEncode(p, false);
    hide Base64.Decode, Base64.Encode, ToBytes, FromBytes, Fits, ClearBit63, Cipher;
    assert p[17..33] == iv && p[33..37] == count && p[1..17] == salt;
  }
}
