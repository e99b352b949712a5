/**
 * The words and bytes of SHA-256 as numbers: what rotation, big-endian order and the length
 * field of the padding mean.
 */
module Sha256Numbers {
  import opened Arith
  import opened Sha256

  function Number(w: Word): nat { w as nat }
  function ByteNumber(b: Byte): (n: nat)
    ensures n < 256
  {
    b as nat
  }

  // ---- rotation ----

  function Power2(k: nat): (r: nat)
    ensures r > 0
  {
    if k == 0 then 1 else 2 * Power2(k - 1)
  }

  /** A word from its upper 31 bits and its lowest, and the word with the lowest in front. */
  function Joined(upper: bv31, lowest: bv1): Word { ((upper as Word) << 1) | (lowest as Word) }
  function Turned(upper: bv31, lowest: bv1): Word { ((lowest as Word) << 31) | (upper as Word) }

  function Upper(upper: bv31): nat { upper as nat }
  function Lowest(lowest: bv1): (n: nat)
    ensures n < 2
  {
    lowest as nat
  }

  lemma NumbersOf(upper: bv31, lowest: bv1)
    ensures Number(Joined(upper, lowest)) == 2 * Upper(upper) + Lowest(lowest)
    ensures Number(Turned(upper, lowest)) == Upper(upper) + Lowest(lowest) * 0x8000_0000
  {
  }

  lemma PartsOf(x: Word) returns (upper: bv31, lowest: bv1)
    ensures x == Joined(upper, lowest) && Ror(x, 1) == Turned(upper, lowest)
  {
    upper, lowest := ((x >> 1) & 0x7fff_ffff) as bv31, (x & 1) as bv1;
  }

  lemma RotateByOne(x: Word)
    ensures Number(Ror(x, 1)) == Number(x) / 2 + Number(x) % 2 * 0x8000_0000
  {
    hide Ror, Number, Joined, Turned, Upper, Lowest;
    var upper, lowest := PartsOf(x);
    NumbersOf(upper, lowest);
  }

  lemma RotateByOneMore(x: Word, n: bv6)
    requires 0 < n < 31
    ensures Ror(x, n + 1) == Ror(Ror(x, n), 1)
  {
  }

  lemma {:induction false} PowersMultiply(j: nat, k: nat)
    ensures Power2(j) * Power2(k) == Power2(j + k)
  {
    if j > 0 {
      PowersMultiply(j - 1, k);
      assert 2 * (Power2(j - 1) * Power2(k)) == Power2(j) * Power2(k);
    }
  }

  /** Rotated by so many places that `p` is their power of two, and by one more. */
  lemma RotatedOn(v: nat, p: nat, h: nat, y: nat)
    requires p > 0 && p * h == 0x8000_0000 && y == v / p + v % p * (2 * h)
    ensures y / 2 + y % 2 * 0x8000_0000 == v / (2 * p) + v % (2 * p) * h
  {
    Split(v, p);
    HalfOf(v / p, v % p, h, y);
    Regrouped(v, p, v / p, v % p);
    Distributed(v / p % 2, p, v % p, h);
  }

  lemma PowersFor(k: nat)
    requires 0 < k < 31
    ensures Power2(32 - k) == 2 * Power2(31 - k) && Power2(k + 1) == 2 * Power2(k)
    ensures Power2(k) * Power2(31 - k) == 0x8000_0000
  {
    PowersMultiply(k, 31 - k);
    PowerOf31();
  }

  lemma PowerOf31()
    ensures Power2(31) == 0x8000_0000
  {
    assert Power2(10) == 1024;
    PowersMultiply(10, 10);
    PowersMultiply(20, 10);
    assert Power2(31) == 2 * Power2(30);
  }

  lemma HalfOf(q: nat, r: nat, h: nat, y: nat)
    requires y == q + r * (2 * h)
    ensures y / 2 == q / 2 + r * h && y % 2 == q % 2
  {
    assert r * (2 * h) == 2 * (r * h);
  }

  lemma Regrouped(v: nat, p: nat, q: nat, r: nat)
    requires p > 0 && v == q * p + r && r < p
    ensures v / (2 * p) == q / 2 && v % (2 * p) == q % 2 * p + r
  {
    var a, b := q / 2, q % 2;
    Distribute(2 * a, b, p);
    assert a * (2 * p) == 2 * a * p;
    assert b * p <= p by { if b == 0 { assert b * p == 0; } else { assert b * p == p; } }
    SplitUnique(v, 2 * p, a, b * p + r);
  }

  lemma Distributed(b: nat, p: nat, r: nat, h: nat)
    ensures (b * p + r) * h == b * (p * h) + r * h
  {
    Distribute(b * p, r, h);
  }

  function Places(n: bv6): nat { n as nat }

  lemma OnePlaceLess(n: bv6)
    requires n > 1
    ensures Places(n - 1) == Places(n) - 1
  {
  }

  lemma PlacesInRange(n: bv6)
    requires 0 < n < 32
    ensures 0 < Places(n) < 32 && (Places(n) == 1 <==> n == 1)
  {
  }

  /** Ror moves the lowest n bits in front: rotation, as the number that comes of it (section 3.2). */
  lemma {:induction false} RorRotates(x: Word, n: bv6)
    requires 0 < n < 32
    ensures 0 < Places(n) < 32
    ensures Number(Ror(x, n)) == Number(x) / Power2(Places(n)) + Number(x) % Power2(Places(n)) * Power2(32 - Places(n))
    decreases n
  {
    hide Ror, Number, Places, Power2;
    PlacesInRange(n);
    if n == 1 {
      RotateByOne(x);
      PowerOf1And31();
    } else {
      OnePlaceLess(n);
      RorRotates(x, n - 1);
      RotateByOneMore(x, n - 1);
      RotateByOne(Ror(x, n - 1));
      PowersFor(Places(n - 1));
      RotatedOn(Number(x), Power2(Places(n - 1)), Power2(31 - Places(n - 1)), Number(Ror(x, n - 1)));
    }
  }

  lemma PowerOf1And31()
    ensures Power2(1) == 2 && Power2(31) == 0x8000_0000
  {
    PowerOf31();
  }

  // ---- big-endian order ----

  /** A sequence of bytes as a number, most significant byte first. */
  function Value(s: seq<Byte>): nat {
    if s == [] then 0 else 256 * Value(s[..|s| - 1]) + ByteNumber(s[|s| - 1])
  }

  lemma ValueOfFour(s: seq<Byte>)
    requires |s| == 4
    ensures Value(s) == 0x100_0000 * ByteNumber(s[0]) + 0x1_0000 * ByteNumber(s[1]) + 0x100 * ByteNumber(s[2]) + ByteNumber(s[3])
  {
    hide ByteNumber;
    assert s[..3][..2] == s[..2] && s[..2][..1] == s[..1] && s[..1][..0] == [];
    ValueOn(s[..1]);
    ValueOn(s[..2]);
    ValueOn(s[..3]);
  }

  lemma ValueOn(s: seq<Byte>)
    ensures s != [] ==> Value(s) == 256 * Value(s[..|s| - 1]) + ByteNumber(s[|s| - 1])
  {
  }

  /** A word of the block is its four bytes in big-endian order (section 3.1). */
  lemma BlockWordIsValue(b: Block, t: nat)
    requires t < 16
    ensures Number(BlockWord(b, t)) == Value(b[4 * t..4 * t + 4])
  {
    hide Number, ByteNumber, Value;
    NumberOfFour(b[4 * t], b[4 * t + 1], b[4 * t + 2], b[4 * t + 3]);
    ValueOfFour(b[4 * t..4 * t + 4]);
  }

  lemma NumberOfFour(b0: Byte, b1: Byte, b2: Byte, b3: Byte)
    ensures Number(((b0 as Word) << 24) | ((b1 as Word) << 16) | ((b2 as Word) << 8) | (b3 as Word)) ==
            0x100_0000 * ByteNumber(b0) + 0x1_0000 * ByteNumber(b1) + 0x100 * ByteNumber(b2) + ByteNumber(b3)
  {
  }

  // ---- the length field ----

  lemma ByteOfIs(n: nat, i: nat)
    ensures ByteNumber(ByteOf(n, i)) == n / Power256(i) % 256
  {
    hide Power256;
    ByteBack(n / Power256(i) % 256);
  }

  lemma ByteBack(k: nat)
    requires k < 256
    ensures ByteNumber(k as Byte) == k
  {
  }

  lemma OneDigitMore(n: nat, p: nat)
    requires p > 0
    ensures n % (256 * p) == n % p + n / p % 256 * p
  {
    Split(n, p);
    Split(n / p, 256);
    var q, b := n / p / 256, n / p % 256;
    Distribute(256 * q, b, p);
    assert n == q * (256 * p) + (b * p + n % p) by { assert q * (256 * p) == 256 * q * p; }
    Distribute(b, 255 - b, p);
    SplitUnique(n, 256 * p, q, b * p + n % p);
  }

  lemma {:induction false} ValueInFront(b: Byte, s: seq<Byte>)
    ensures Value([b] + s) == ByteNumber(b) * Power256(|s|) + Value(s)
  {
    hide ByteNumber;
    if s == [] {
      assert [b] + s == [b] && [b][..0] == [];
    } else {
      var rest, last := s[..|s| - 1], s[|s| - 1];
      assert ([b] + s)[..|s|] == [b] + rest;
      ValueInFront(b, rest);
      Distribute(ByteNumber(b) * Power256(|rest|), Value(rest), 256);
      assert 256 * (ByteNumber(b) * Power256(|rest|)) == ByteNumber(b) * Power256(|s|);
    }
  }

  lemma ByteAt(n: nat, j: nat)
    requires j < 8
    ensures BigEndian(n)[j] == ByteOf(n, 7 - j)
  {
    hide ByteOf;
  }

  lemma BytesInOrder(n: nat, i: nat)
    requires 0 < i <= 8
    ensures BigEndian(n)[8 - i..] == [ByteOf(n, i - 1)] + BigEndian(n)[9 - i..]
  {
    ByteAt(n, 8 - i);
    hide ByteOf, BigEndian;
  }

  /** The last `i` of the eight bytes. */
  lemma {:induction false} LowBytes(n: nat, i: nat)
    requires i <= 8
    ensures Value(BigEndian(n)[8 - i..]) == n % Power256(i)
  {
    hide ByteOf, ByteNumber, Value, Power256, BigEndian;
    if i == 0 {
      NoBytes(n);
      assert BigEndian(n)[8..] == [];
    } else {
      LowBytes(n, i - 1);
      BytesInOrder(n, i);
      OneByteMore(n, i - 1, BigEndian(n)[9 - i..]);
      PowerOn(i);
    }
  }

  lemma OneByteMore(n: nat, i: nat, s: seq<Byte>)
    requires |s| == i && Value(s) == n % Power256(i)
    ensures Value([ByteOf(n, i)] + s) == n % (256 * Power256(i))
  {
    hide ByteOf, ByteNumber, Value, Power256;
    ByteOfIs(n, i);
    ValueInFront(ByteOf(n, i), s);
    OneDigitMore(n, Power256(i));
  }

  lemma NoBytes(n: nat)
    ensures Value([]) == 0 && n % Power256(0) == 0
  {
  }

  lemma PowerOn(i: nat)
    requires i > 0
    ensures Power256(i) == 256 * Power256(i - 1)
  {
  }

  /** The length field of the standard's padding is the length in bits, in big-endian order (section 5.1.1). */
  lemma LengthFieldIsLength(m: seq<Byte>)
    requires 8 * |m| < 0x1_0000_0000_0000_0000
    ensures Value(Pad(m)[|Pad(m)| - 8..]) == 8 * |m|
  {
    hide Value, BigEndian, PadWith;
    var n, p := 8 * |m|, Pad(m);
    assert p[|p| - 8..] == BigEndian(n);
    LowBytes(n, 8);
    assert BigEndian(n)[0..] == BigEndian(n);
    assert Power256(4) == 0x1_0000_0000 && Power256(8) == 0x1_0000_0000_0000_0000;
    SmallRemainder(n, 0x1_0000_0000_0000_0000);
  }

  lemma SmallRemainder(n: nat, m: nat)
    requires n < m
    ensures n % m == n
  {
    SplitUnique(n, m, 0, n);
  }

  /** The program's 32-bit words stand for the numbers that they are made from. */
  lemma Uint32IsNumber(n: nat)
    requires n < 0x1_0000_0000
    ensures Number(Uint32(n)) == n
  {
    hide ByteOf, ByteNumber, Number;
    NumberOfLoad(ByteOf(n, 0), ByteOf(n, 1), ByteOf(n, 2), ByteOf(n, 3));
    assert Power256(1) == 256 && Power256(2) == 0x1_0000 && Power256(3) == 0x100_0000;
    ByteOfIs(n, 0);
    ByteOfIs(n, 1);
    ByteOfIs(n, 2);
    ByteOfIs(n, 3);
    OneDigitMore(n, 1);
    OneDigitMore(n, 256);
    OneDigitMore(n, 0x1_0000);
    OneDigitMore(n, 0x100_0000);
    SmallRemainder(n, 0x1_0000_0000);
  }

  lemma NumberOfLoad(b0: Byte, b1: Byte, b2: Byte, b3: Byte)
    ensures Number(Load(b0, b1, b2, b3)) ==
            ByteNumber(b0) + 0x100 * ByteNumber(b1) + 0x1_0000 * ByteNumber(b2) + 0x100_0000 * ByteNumber(b3)
  {
  }
}
