/** Base64 without padding (section 4 of RFC 4648), as the unpaddedbase64 library does it. */
module Base64 {
  import opened Wrappers
  import opened ByteStrings

  type sextet = x: int | 0 <= x < 64

  /** The digit of a value; the URL-safe alphabet (section 5) has two other ones. */
  function Digit(v: sextet, urlSafe: bool): char {
    if v < 26 then 'A' + (v as char)
    else if v < 52 then 'a' + ((v - 26) as char)
    else if v < 62 then '0' + ((v - 52) as char)
    else if v == 62 then (if urlSafe then '-' else '+')
    else (if urlSafe then '_' else '/')
  }

  /** The digits by their code points (section 4 of RFC 4648, table 1; section 5, table 2). */
  lemma DigitsAre(v: sextet)
    ensures v < 26 ==> Digit(v, false) as int == Digit(v, true) as int == 0x41 + v
    ensures 26 <= v < 52 ==> Digit(v, false) as int == Digit(v, true) as int == 0x61 + v - 26
    ensures 52 <= v < 62 ==> Digit(v, false) as int == Digit(v, true) as int == 0x30 + v - 52
    ensures v == 62 ==> Digit(v, false) as int == 0x2B && Digit(v, true) as int == 0x2D
    ensures v == 63 ==> Digit(v, false) as int == 0x2F && Digit(v, true) as int == 0x5F
  {
  }

  /** The value of a digit of either alphabet. */
  function Value(c: char): Option<sextet> {
    if 'A' <= c <= 'Z' then Some((c - 'A') as int)
    else if 'a' <= c <= 'z' then Some((c - 'a') as int + 26)
    else if '0' <= c <= '9' then Some((c - '0') as int + 52)
    else if c == '+' || c == '-' then Some(62)
    else if c == '/' || c == '_' then Some(63)
    else None
  }

  lemma DigitValue(v: sextet, urlSafe: bool)
    ensures Value(Digit(v, urlSafe)) == Some(v) && Digit(v, urlSafe) != '\n'
  {
  }

  /** The values of all digits, or None. */
  function Values(s: string): Option<seq<sextet>> {
    if s == "" then Some([])
    else match (Value(s[0]), Values(s[1..]))
      case (Some(v), Some(vs)) => Some([v] + vs)
      case _ => None
  }

  /** Four digits make three bytes; a single digit at the end is an error. */
  function Pack(vs: seq<sextet>): Option<Bytes> {
    if vs == [] then Some([])
    else if |vs| == 1 then None
    else
      var b0: byte := (vs[0] as int) * 4 + vs[1] / 16;
      if |vs| == 2 then Some([b0])
      else
        var b1: byte := (vs[1] as int) % 16 * 16 + vs[2] / 4;
        if |vs| == 3 then Some([b0, b1])
        else
          var b2: byte := (vs[2] as int) % 4 * 64 + vs[3];
          match Pack(vs[4..])
          case None => None
          case Some(rest) => Some([b0, b1, b2] + rest)
  }

  function Decode(s: string): Option<Bytes> {
    match Values(s)
    case None => None
    case Some(vs) => Pack(vs)
  }

  /** Three bytes make four digits; what is left over is filled up with zero bits. */
  function Sextets(b: Bytes): seq<sextet> {
    if b == [] then []
    else if |b| == 1 then [b[0] / 4, b[0] % 4 * 16]
    else if |b| == 2 then [b[0] / 4, b[0] % 4 * 16 + b[1] / 16, b[1] % 16 * 4]
    else [b[0] / 4, b[0] % 4 * 16 + b[1] / 16, b[1] % 16 * 4 + b[2] / 64, b[2] % 64] + Sextets(b[3..])
  }

  function Digits(vs: seq<sextet>, urlSafe: bool): string {
    if vs == [] then "" else [Digit(vs[0], urlSafe)] + Digits(vs[1..], urlSafe)
  }

  function Encode(b: Bytes, urlSafe: bool): string {
    Digits(Sextets(b), urlSafe)
  }

  lemma {:induction false} ValuesOfDigits(vs: seq<sextet>, urlSafe: bool)
    ensures Values(Digits(vs, urlSafe)) == Some(vs) && '\n' !in Digits(vs, urlSafe)
  {
    if vs == [] {
    } else {
      DigitValue(vs[0], urlSafe);
      ValuesOfDigits(vs[1..], urlSafe);
      assert Digits(vs, urlSafe)[0] == Digit(vs[0], urlSafe) && Digits(vs, urlSafe)[1..] == Digits(vs[1..], urlSafe);
      assert vs == [vs[0]] + vs[1..];
    }
  }

  lemma {:induction false} UrlSafeDigits(vs: seq<sextet>)
    ensures '+' !in Digits(vs, true) && '/' !in Digits(vs, true)
  {
    if vs == [] {
    } else {
      UrlSafeDigits(vs[1..]);
      DigitsAre(vs[0]);
    }
  }

  lemma PackTwo(a: byte)
    ensures Pack(Sextets([a])) == Some([a])
  {
  }

  lemma PackThree(a: byte, b: byte)
    ensures Pack(Sextets([a, b])) == Some([a, b])
  {
  }

  /** Four digits at the front. */
  lemma PackFour(vs: seq<sextet>, a: byte, b: byte, c: byte, rest: Bytes)
    requires |vs| >= 4 && vs[..4] == [a / 4, a % 4 * 16 + b / 16, b % 16 * 4 + c / 64, c % 64]
    requires Pack(vs[4..]) == Some(rest)
    ensures Pack(vs) == Some([a, b, c] + rest)
  {
    assert vs[0] == vs[..4][0] && vs[1] == vs[..4][1] && vs[2] == vs[..4][2] && vs[3] == vs[..4][3];
    assert (vs[0] as int) * 4 + vs[1] / 16 == a;
    assert (vs[1] as int) % 16 * 16 + vs[2] / 4 == b;
    assert (vs[2] as int) % 4 * 64 + vs[3] == c;
  }

  lemma {:induction false} PackSextets(b: Bytes)
    ensures Pack(Sextets(b)) == Some(b)
  {
    if b == [] {
    } else if |b| == 1 {
      assert b == [b[0]];
      PackTwo(b[0]);
    } else if |b| == 2 {
      assert b == [b[0], b[1]];
      PackThree(b[0], b[1]);
    } else {
      PackSextets(b[3..]);
      assert Sextets(b)[4..] == Sextets(b[3..]);
      PackFour(Sextets(b), b[0], b[1], b[2], b[3..]);
      assert b == [b[0], b[1], b[2]] + b[3..];
    }
  }

  /** Decoding gives back the bytes, and the text never contains a line break. */
  lemma DecodeEncode(b: Bytes, urlSafe: bool)
    ensures Decode(Encode(b, urlSafe)) == Some(b) && '\n' !in Encode(b, urlSafe)
  {
    ValuesOfDigits(Sextets(b), urlSafe);
    PackSextets(b);
  }

  /** Three bytes and their four digits are the same number, in base 256 and in base 64; missing bytes count as zero. */
  lemma GroupIsNumber(a: byte, b: byte, c: byte)
    ensures
      var vs := Sextets([a, b, c]);
      |vs| == 4 && (((vs[0] as int) * 64 + vs[1]) * 64 + vs[2]) * 64 + vs[3] == ((a as int) * 256 + b) * 256 + c
    ensures Sextets([a, b]) == Sextets([a, b, 0])[..3] && Sextets([a]) == Sextets([a, 0, 0])[..2]
  {
    assert Sextets([a, b, c]) == [a / 4, a % 4 * 16 + b / 16, b % 16 * 4 + c / 64, c % 64] by {
      assert [a, b, c][3..] == [];
    }
    assert Sextets([a, b, 0]) == [a / 4, a % 4 * 16 + b / 16, b % 16 * 4, 0] by {
      assert [a, b, 0][3..] == [];
    }
    assert Sextets([a, 0, 0]) == [a / 4, a % 4 * 16, 0, 0] by {
      assert [a, 0, 0][3..] == [];
    }
    GroupSum(a, b, c);
  }

  lemma GroupSum(a: int, b: int, c: int)
    ensures ((a / 4 * 64 + (a % 4 * 16 + b / 16)) * 64 + (b % 16 * 4 + c / 64)) * 64 + c % 64 == (a * 256 + b) * 256 + c
  {
    assert a == a / 4 * 4 + a % 4;
    assert b == b / 16 * 16 + b % 16;
    assert c == c / 64 * 64 + c % 64;
  }

  /** Longer data is encoded in groups of three bytes, one after the other. */
  lemma GroupsInOrder(b: Bytes, rest: Bytes)
    requires |b| == 3
    ensures Sextets(b + rest) == Sextets(b) + Sextets(rest)
  {
    assert (b + rest)[3..] == rest && b[3..] == [];
  }
}
