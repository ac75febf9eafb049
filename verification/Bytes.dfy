/** Byte strings: big-endian numbers, exclusive or, and Python's slices. */
module ByteStrings {
  type byte = x: int | 0 <= x < 256

  type Bytes = seq<byte>

  function Min(a: int, b: int): (r: int)
    ensures r <= a && r <= b && (r == a || r == b)
  {
    if a < b then a else b
  }

  /** Whether a number fits into so many bytes. */
  predicate Fits(n: nat, length: nat) {
    if length == 0 then n == 0 else Fits(n / 256, length - 1)
  }

  /** `int.to_bytes(n, length, "big")` for a number that fits. */
  function ToBytes(n: nat, length: nat): (r: Bytes)
    ensures |r| == length
  {
    if length == 0 then [] else ToBytes(n / 256, length - 1) + [n % 256]
  }

  /** `int.from_bytes(b, "big")`. */
  function FromBytes(b: Bytes): nat {
    if b == [] then 0 else FromBytes(b[..|b| - 1]) * 256 + b[|b| - 1]
  }

  lemma {:induction false} FromToBytes(n: nat, length: nat)
    requires Fits(n, length)
    ensures FromBytes(ToBytes(n, length)) == n
  {
    if length == 0 {
    } else {
      FromToBytes(n / 256, length - 1);
      assert ToBytes(n, length)[..length - 1] == ToBytes(n / 256, length - 1);
    }
  }

  lemma {:induction false} ToFromBytes(b: Bytes)
    ensures Fits(FromBytes(b), |b|) && ToBytes(FromBytes(b), |b|) == b
  {
    if b == [] {
    } else {
      ToFromBytes(b[..|b| - 1]);
      assert b == b[..|b| - 1] + [b[|b| - 1]];
      assert FromBytes(b) / 256 == FromBytes(b[..|b| - 1]);
    }
  }

  /** The most significant byte comes first. */
  lemma BigEndian(n: nat, b: Bytes, last: byte)
    ensures FromBytes(b + [last]) == 256 * FromBytes(b) + last
    ensures ToBytes(n, 4) == [n / 256 / 256 / 256 % 256, n / 256 / 256 % 256, n / 256 % 256, n % 256]
  {
    assert (b + [last])[..|b|] == b;
    assert ToBytes(n / 256 / 256 / 256, 1) == ToBytes(n / 256 / 256 / 256 / 256, 0) + [n / 256 / 256 / 256 % 256];
    assert ToBytes(n / 256 / 256, 2) == ToBytes(n / 256 / 256 / 256, 1) + [n / 256 / 256 % 256];
    assert ToBytes(n / 256, 3) == ToBytes(n / 256 / 256, 2) + [n / 256 % 256];
  }

  lemma FitsFourBytes(n: nat)
    ensures Fits(n, 4) <==> n < 0x1_0000_0000
  {
    assert Fits(n, 4) == Fits(n / 256, 3) == Fits(n / 256 / 256, 2) == Fits(n / 256 / 256 / 256, 1);
    assert Fits(n / 256 / 256 / 256, 1) == Fits(n / 256 / 256 / 256 / 256, 0);
  }

  /** The exclusive or of the lowest bits of two numbers. */
  function XorBits(a: nat, b: nat, bits: nat): (r: nat) {
    if bits == 0 then 0 else XorBits(a / 2, b / 2, bits - 1) * 2 + (a + b) % 2
  }

  predicate FitsBits(n: nat, bits: nat) {
    if bits == 0 then n == 0 else FitsBits(n / 2, bits - 1)
  }

  lemma {:induction false} XorTwice(a: nat, k: nat, bits: nat)
    requires FitsBits(a, bits)
    ensures FitsBits(XorBits(a, k, bits), bits) && XorBits(XorBits(a, k, bits), k, bits) == a
  {
    if bits == 0 {
    } else {
      XorTwice(a / 2, k / 2, bits - 1);
      Halve(XorBits(a / 2, k / 2, bits - 1), a, k);
      hide XorBits;
      assert XorBits(a, k, bits) == XorBits(a / 2, k / 2, bits - 1) * 2 + (a + k) % 2 by {
        XorUnfold(a, k, bits);
      }
      XorUnfold(XorBits(a, k, bits), k, bits);
    }
  }

  lemma XorUnfold(a: nat, k: nat, bits: nat)
    requires bits > 0
    ensures XorBits(a, k, bits) == XorBits(a / 2, k / 2, bits - 1) * 2 + (a + k) % 2
  {
  }

  lemma Halve(x: nat, a: nat, k: nat)
    ensures (x * 2 + (a + k) % 2) / 2 == x && (x * 2 + (a + k) % 2 + k) % 2 == a % 2
  {
  }

  lemma {:induction false} FitsEightBits(n: nat)
    ensures FitsBits(n, 8) <==> n < 256
  {
    assert FitsBits(n, 8) == FitsBits(n / 2, 7) == FitsBits(n / 2 / 2, 6) == FitsBits(n / 2 / 2 / 2, 5);
    assert FitsBits(n / 2 / 2 / 2, 5) == FitsBits(n / 2 / 2 / 2 / 2, 4) == FitsBits(n / 2 / 2 / 2 / 2 / 2, 3);
    assert FitsBits(n / 2 / 2 / 2 / 2 / 2, 3) == FitsBits(n / 2 / 2 / 2 / 2 / 2 / 2, 2)
        == FitsBits(n / 2 / 2 / 2 / 2 / 2 / 2 / 2, 1);
    assert FitsBits(n / 2 / 2 / 2 / 2 / 2 / 2 / 2, 1) == FitsBits(n / 2 / 2 / 2 / 2 / 2 / 2 / 2 / 2, 0);
  }

  function Xor(a: byte, k: byte): byte {
    FitsEightBits(a);
    XorTwice(a, k, 8);
    FitsEightBits(XorBits(a, k, 8));
    XorBits(a, k, 8)
  }

  lemma XorInvolution(a: byte, k: byte)
    ensures Xor(Xor(a, k), k) == a
  {
    FitsEightBits(a);
    XorTwice(a, k, 8);
  }

  function Bit(n: nat, i: nat): nat {
    if i == 0 then n % 2 else Bit(n / 2, i - 1)
  }

  /** Each bit of the exclusive or is set exactly when one of the two bits is, but not both. */
  lemma {:induction false} XorBitwise(a: nat, k: nat, bits: nat, i: nat)
    requires i < bits
    ensures Bit(XorBits(a, k, bits), i) == (if Bit(a, i) == Bit(k, i) then 0 else 1)
  {
    var rest := XorBits(a / 2, k / 2, bits - 1);
    HalfOf(rest, (a + k) % 2);
    if i == 0 {
      LowBits(a, k);
    } else {
      XorBitwise(a / 2, k / 2, bits - 1, i - 1);
    }
  }

  lemma HalfOf(x: nat, b: nat)
    requires b < 2
    ensures (x * 2 + b) / 2 == x && (x * 2 + b) % 2 == b
  {
  }

  lemma LowBits(a: nat, k: nat)
    ensures (a + k) % 2 == if a % 2 == k % 2 then 0 else 1
  {
  }

  lemma XorIs(a: byte, k: byte, i: nat)
    requires i < 8
    ensures Bit(Xor(a, k), i) == (if Bit(a, i) == Bit(k, i) then 0 else 1)
  {
    XorBitwise(a, k, 8, i);
  }

  /** A stream cipher in counter mode: exclusive or with a keystream, from some position on. */
  function Cipher(keystream: nat -> byte, data: Bytes, position: nat): (r: Bytes)
    ensures |r| == |data|
    ensures forall i :: 0 <= i < |data| ==> r[i] == Xor(data[i], keystream(position + i))
  {
    seq(|data|, i requires 0 <= i < |data| => Xor(data[i], keystream(position + i)))
  }

  lemma CipherTwice(keystream: nat -> byte, data: Bytes, position: nat)
    ensures Cipher(keystream, Cipher(keystream, data, position), position) == data
  {
    forall i | 0 <= i < |data| ensures Cipher(keystream, Cipher(keystream, data, position), position)[i] == data[i] {
      XorInvolution(data[i], keystream(position + i));
    }
  }

  /** Python's `b[i:j]`: positions past the end are cut off, negative ones count from the end. */
  function Slice(b: Bytes, i: int, j: int): Bytes {
    var from, to := Clamp(i, |b|), Clamp(j, |b|);
    if from <= to then b[from..to] else []
  }

  function Clamp(i: int, n: nat): (r: nat)
    ensures r <= n
  {
    var k := if i < 0 then i + n else i;
    if k < 0 then 0 else if k > n then n else k
  }
}
