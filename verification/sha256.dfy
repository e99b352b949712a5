/**
 * SHA-256 of FIPS 180-4, and the one-shot computation of sha256sum.c on a little-endian
 * machine.
 */
module Sha256 {
  type Byte = bv8
  type Word = bv32

  // ---- the standard ----

  /** Section 4.2.2 */
  const K: seq<Word> :=
    [0x428a2f98, 0x71374491, 0xb5c0fbcf, 0xe9b5dba5, 0x3956c25b, 0x59f111f1, 0x923f82a4, 0xab1c5ed5,
     0xd807aa98, 0x12835b01, 0x243185be, 0x550c7dc3, 0x72be5d74, 0x80deb1fe, 0x9bdc06a7, 0xc19bf174] +
    [0xe49b69c1, 0xefbe4786, 0x0fc19dc6, 0x240ca1cc, 0x2de92c6f, 0x4a7484aa, 0x5cb0a9dc, 0x76f988da,
     0x983e5152, 0xa831c66d, 0xb00327c8, 0xbf597fc7, 0xc6e00bf3, 0xd5a79147, 0x06ca6351, 0x14292967] +
    [0x27b70a85, 0x2e1b2138, 0x4d2c6dfc, 0x53380d13, 0x650a7354, 0x766a0abb, 0x81c2c92e, 0x92722c85,
     0xa2bfe8a1, 0xa81a664b, 0xc24b8b70, 0xc76c51a3, 0xd192e819, 0xd6990624, 0xf40e3585, 0x106aa070] +
    [0x19a4c116, 0x1e376c08, 0x2748774c, 0x34b0bcb5, 0x391c0cb3, 0x4ed8aa4a, 0x5b9cca4f, 0x682e6ff3,
     0x748f82ee, 0x78a5636f, 0x84c87814, 0x8cc70208, 0x90befffa, 0xa4506ceb, 0xbef9a3f7, 0xc67178f2]

  /** ROTR of section 3.2, for 0 < n < 32 */
  function Ror(value: Word, amount: bv6): Word
    requires 0 < amount < 32
  {
    (value >> amount) | (value << (32 - amount))
  }

  /** Addition modulo 2^32, section 3.2 */
  function Plus(x: Word, y: Word): Word { x + y }
  function Plus4(x: Word, y: Word, z: Word, u: Word): Word { x + y + z + u }
  function Plus5(x: Word, y: Word, z: Word, u: Word, v: Word): Word { x + y + z + u + v }

  // the functions of section 4.1.2
  function Ch(x: Word, y: Word, z: Word): Word { (x & y) ^ (!x & z) }
  function Maj(x: Word, y: Word, z: Word): Word { (x & y) ^ (x & z) ^ (y & z) }
  function BigSigma0(x: Word): Word { Ror(x, 2) ^ Ror(x, 13) ^ Ror(x, 22) }
  function BigSigma1(x: Word): Word { Ror(x, 6) ^ Ror(x, 11) ^ Ror(x, 25) }
  function Sigma0(x: Word): Word { Ror(x, 7) ^ Ror(x, 18) ^ (x >> 3) }
  function Sigma1(x: Word): Word { Ror(x, 17) ^ Ror(x, 19) ^ (x >> 10) }

  type Block = b: seq<Byte> | |b| == 64 witness seq(64, _ => 0)

  /** Word `t` of a block: its bytes with the most significant first, section 3.1. */
  function BlockWord(b: Block, t: nat): Word
    requires t < 16
  {
    ((b[4 * t] as Word) << 24) | ((b[4 * t + 1] as Word) << 16) | ((b[4 * t + 2] as Word) << 8) | (b[4 * t + 3] as Word)
  }

  function NextWord(w2: Word, w7: Word, w15: Word, w16: Word): Word {
    Plus4(Sigma1(w2), w7, Sigma0(w15), w16)
  }

  /** The message schedule, section 6.2.2 step 1 */
  ghost function Schedule(b: Block, t: nat): Word {
    if t < 16 then BlockWord(b, t)
    else NextWord(Schedule(b, t - 2), Schedule(b, t - 7), Schedule(b, t - 15), Schedule(b, t - 16))
  }

  datatype Hash = Hash(a: Word, b: Word, c: Word, d: Word, e: Word, f: Word, g: Word, h: Word)

  /** One turn of section 6.2.2 step 3 */
  function Round(v: Hash, k: Word, w: Word): Hash {
    var t1 := Plus5(v.h, BigSigma1(v.e), Ch(v.e, v.f, v.g), k, w);
    var t2 := Plus(BigSigma0(v.a), Maj(v.a, v.b, v.c));
    Hash(Plus(t1, t2), v.a, v.b, v.c, Plus(v.d, t1), v.e, v.f, v.g)
  }

  ghost function Rounds(v: Hash, b: Block, t: nat): Hash
    requires t <= 64
  {
    if t == 0 then v else Round(Rounds(v, b, t - 1), K[t - 1], Schedule(b, t - 1))
  }

  function Sum(v: Hash, u: Hash): Hash {
    Hash(Plus(v.a, u.a), Plus(v.b, u.b), Plus(v.c, u.c), Plus(v.d, u.d),
         Plus(v.e, u.e), Plus(v.f, u.f), Plus(v.g, u.g), Plus(v.h, u.h))
  }

  /** Section 6.2.2 step 4 */
  ghost function Compress(v: Hash, b: Block): Hash { Sum(v, Rounds(v, b, 64)) }

  /** Section 5.3.3 */
  const INITIAL := Hash(0x6a09e667, 0xbb67ae85, 0x3c6ef372, 0xa54ff53a, 0x510e527f, 0x9b05688c, 0x1f83d9ab, 0x5be0cd19)

  /** The hash value after the first `n` blocks of a padded message. */
  ghost function HashBlocks(p: seq<Byte>, n: nat): Hash
    requires 64 * n <= |p|
  {
    if n == 0 then INITIAL else Compress(HashBlocks(p, n - 1), p[64 * (n - 1)..64 * n])
  }

  /** The number of zero bits that section 5.1.1 puts after the one bit. */
  function ZeroBits(length: nat): nat { (447 - length) % 512 }

  /** It is the smallest number that leaves room for the length, and in whole bytes the one
      bit and the zeros are 0x80 and zero bytes. */
  lemma ZeroBitsAreLeast(length: nat, k: nat)
    ensures (length + 1 + ZeroBits(length)) % 512 == 448
    ensures (length + 1 + k) % 512 == 448 ==> ZeroBits(length) <= k
    ensures length % 8 == 0 ==> ZeroBits(length) % 8 == 7
  {
    var z, q := ZeroBits(length), (447 - length) / 512;
    assert 447 - length == 512 * q + z && 0 <= z < 512;
    if (length + 1 + k) % 512 == 448 {
      var r := (length + 1 + k) / 512;
      assert length + 1 + k == 512 * r + 448;
      assert k - z == 512 * (r + q);
    }
    if length % 8 == 0 {
      var e := length / 8;
      assert z == 8 * (55 - e - 64 * q) + 7;
    }
  }

  /** Byte `i` of a number, counted from the least significant one. */
  function ByteOf(n: nat, i: nat): Byte { ((n / Power256(i)) % 256) as Byte }

  function Power256(i: nat): (r: nat)
    ensures r > 0
  {
    if i == 0 then 1 else 256 * Power256(i - 1)
  }

  /** A number as 64 bits, most significant byte first. */
  function BigEndian(n: nat): (s: seq<Byte>)
    ensures |s| == 8
  {
    [ByteOf(n, 7), ByteOf(n, 6), ByteOf(n, 5), ByteOf(n, 4), ByteOf(n, 3), ByteOf(n, 2), ByteOf(n, 1), ByteOf(n, 0)]
  }

  lemma PaddedLength(n: nat)
    ensures n + 1 + ZeroBits(8 * n) / 8 + 8 == n - n % 64 + if n % 64 < 56 then 64 else 128
  {
  }

  /** A message of whole bytes, padded to whole blocks, with `length` as the length field. */
  function PadWith(m: seq<Byte>, length: nat): (p: seq<Byte>)
    ensures |p| == |m| - |m| % 64 + (if |m| % 64 < 56 then 64 else 128)
    ensures forall i :: 0 <= i < |p| ==>
              (p[i] == if i < |m| then m[i] else if i == |m| then 0x80 else if i < |p| - 8 then 0 else BigEndian(length)[i + 8 - |p|])
  {
    PaddedLength(|m|);
    var zeros := ZeroBits(8 * |m|) / 8;
    m + [0x80] + seq(zeros, _ => 0) + BigEndian(length)
  }

  /** Section 5.1.1: the length field is the message length in bits. */
  function Pad(m: seq<Byte>): seq<Byte>
    requires 8 * |m| < 0x1_0000_0000_0000_0000
  {
    PadWith(m, 8 * |m|)
  }

  ghost function Sha256(m: seq<Byte>): Hash
    requires 8 * |m| < 0x1_0000_0000_0000_0000
  {
    HashBlocks(Pad(m), |Pad(m)| / 64)
  }

  // ---- the program ----

  function ByteSwap32(value: Word): Word {
    ((value >> 24) & 0x000000ff) | ((value >> 8) & 0x0000ff00) | ((value << 8) & 0x00ff0000) | ((value << 24) & 0xff000000)
  }

  /** A 32-bit load on a little-endian machine. */
  function Load(b0: Byte, b1: Byte, b2: Byte, b3: Byte): Word {
    (b0 as Word) | ((b1 as Word) << 8) | ((b2 as Word) << 16) | ((b3 as Word) << 24)
  }

  lemma SwappedLoad(b0: Byte, b1: Byte, b2: Byte, b3: Byte)
    ensures ByteSwap32(Load(b0, b1, b2, b3)) ==
            ((b0 as Word) << 24) | ((b1 as Word) << 16) | ((b2 as Word) << 8) | (b3 as Word)
  {
  }

  ghost function HashOf(s: seq<Word>): Hash
    requires |s| == 8
  {
    Hash(s[0], s[1], s[2], s[3], s[4], s[5], s[6], s[7])
  }

  lemma LoadedWord(b: Block, t: nat)
    requires t < 16
    ensures ByteSwap32(Load(b[4 * t], b[4 * t + 1], b[4 * t + 2], b[4 * t + 3])) == Schedule(b, t)
  {
    hide ByteSwap32, Load;
    SwappedLoad(b[4 * t], b[4 * t + 1], b[4 * t + 2], b[4 * t + 3]);
  }

  /** The program adds the four words up in another order than the standard. */
  lemma NextWordIs(w2: Word, w7: Word, w15: Word, w16: Word)
    ensures NextWord(w2, w7, w15, w16) == Plus4(w16, Sigma0(w15), w7, Sigma1(w2))
  {
    hide Sigma0, Sigma1, Plus4;
    AddedInAnyOrder(Sigma1(w2), w7, Sigma0(w15), w16);
  }

  lemma AddedInAnyOrder(x: Word, y: Word, z: Word, u: Word)
    ensures Plus4(x, y, z, u) == Plus4(u, z, y, x)
  {
  }

  lemma ScheduleNext(b: Block, t: nat)
    requires t >= 16
    ensures Schedule(b, t) == NextWord(Schedule(b, t - 2), Schedule(b, t - 7), Schedule(b, t - 15), Schedule(b, t - 16))
  {
    hide NextWord, BlockWord;
  }

  /** The first sixteen words of the message schedule. */
  method LoadBlock(bytes: array<Byte>, offset: nat, w: array<Word>)
    requires offset + 64 <= bytes.Length && w.Length == 64
    modifies w
    ensures forall j :: 0 <= j < 16 ==> w[j] == Schedule(bytes[offset..offset + 64], j)
  {
    hide ByteSwap32, Load, Schedule;
    ghost var b: Block := bytes[offset..offset + 64];
    for i := 0 to 16
      invariant bytes[offset..offset + 64] == b
      invariant forall j :: 0 <= j < i ==> w[j] == Schedule(b, j)
    {
      var o := offset + 4 * i;
      LoadedWord(b, i);
      w[i] := ByteSwap32(Load(bytes[o], bytes[o + 1], bytes[o + 2], bytes[o + 3]));
    }
  }

  /** The other words, each from four that come before it. */
  method ExtendSchedule(w: array<Word>, ghost b: Block)
    requires w.Length == 64 && forall j :: 0 <= j < 16 ==> w[j] == Schedule(b, j)
    modifies w
    ensures forall j :: 0 <= j < 64 ==> w[j] == Schedule(b, j)
  {
    hide Sigma0, Sigma1, Schedule, NextWord, Plus4;
    for i := 16 to 64
      invariant forall j :: 0 <= j < i ==> w[j] == Schedule(b, j)
    {
      var s0 := Sigma0(w[i - 15]);
      var s1 := Sigma1(w[i - 2]);
      ScheduleNext(b, i);
      NextWordIs(w[i - 2], w[i - 7], w[i - 15], w[i - 16]);
      w[i] := Plus4(w[i - 16], s0, w[i - 7], s1);
    }
  }

  /** The 64 turns of the compression. */
  method Turns(v: Hash, w: array<Word>, ghost block: Block) returns (r: Hash)
    requires w.Length == 64 && forall j :: 0 <= j < 64 ==> w[j] == Schedule(block, j)
    ensures r == Rounds(v, block, 64)
  {
    hide BigSigma0, BigSigma1, Ch, Maj, Schedule, Plus, Plus5;
    var a, b, c, d, e, f, g, h := v.a, v.b, v.c, v.d, v.e, v.f, v.g, v.h;
    for i := 0 to 64
      invariant Hash(a, b, c, d, e, f, g, h) == Rounds(v, block, i)
    {
      var t2 := Plus(BigSigma0(a), Maj(a, b, c));
      var t1 := Plus5(h, BigSigma1(e), Ch(e, f, g), K[i], w[i]);
      h := g;
      g := f;
      f := e;
      e := Plus(d, t1);
      d := c;
      c := b;
      b := a;
      a := Plus(t1, t2);
    }
    r := Hash(a, b, c, d, e, f, g, h);
  }

  /** sha256chunk */
  method Sha256Chunk(sha256: array<Word>, bytes: array<Byte>, offset: nat)
    requires sha256.Length == 8 && offset + 64 <= bytes.Length
    modifies sha256
    ensures HashOf(sha256[..]) == Compress(old(HashOf(sha256[..])), bytes[offset..offset + 64])
  {
    hide Rounds, Schedule, Plus;
    ghost var block: Block := bytes[offset..offset + 64];
    var v := Hash(sha256[0], sha256[1], sha256[2], sha256[3], sha256[4], sha256[5], sha256[6], sha256[7]);
    var w := new Word[64];
    LoadBlock(bytes, offset, w);
    ExtendSchedule(w, block);
    var r := Turns(v, w, block);
    sha256[0] := Plus(sha256[0], r.a);
    sha256[1] := Plus(sha256[1], r.b);
    sha256[2] := Plus(sha256[2], r.c);
    sha256[3] := Plus(sha256[3], r.d);
    sha256[4] := Plus(sha256[4], r.e);
    sha256[5] := Plus(sha256[5], r.f);
    sha256[6] := Plus(sha256[6], r.g);
    sha256[7] := Plus(sha256[7], r.h);
  }

  // ---- whole messages ----

  /** Arithmetic on uint32_t drops what does not fit. */
  function ShortLength(size: nat): nat { (8 * size) % 0x1_0000_0000 }

  /** What the program hashes. */
  function PaddedByProgram(m: seq<Byte>): seq<Byte> { PadWith(m, ShortLength(|m|)) }

  /** A uint32_t with the value `n`. */
  function Uint32(n: nat): Word { Load(ByteOf(n, 0), ByteOf(n, 1), ByteOf(n, 2), ByteOf(n, 3)) }

  lemma SwappedBytes(b0: Byte, b1: Byte, b2: Byte, b3: Byte)
    ensures var x := ByteSwap32(Load(b0, b1, b2, b3));
            && (x & 0xff) as Byte == b3 && ((x >> 8) & 0xff) as Byte == b2
            && ((x >> 16) & 0xff) as Byte == b1 && ((x >> 24) & 0xff) as Byte == b0
  {
  }

  lemma NoHighByte(n: nat, i: nat)
    requires n < Power256(i)
    ensures ByteOf(n, i) == 0
  {
    NoQuotient(n, Power256(i));
    hide Power256;
  }

  lemma NoQuotient(n: nat, d: nat)
    requires n < d
    ensures n / d % 256 == 0
  {
  }

  lemma NoHighBytes(n: nat)
    requires n < 0x1_0000_0000
    ensures ByteOf(n, 4) == ByteOf(n, 5) == ByteOf(n, 6) == ByteOf(n, 7) == 0
  {
    hide ByteOf;
    assert Power256(2) == 0x1_0000;
    assert Power256(4) == 0x1_0000_0000;
    assert Power256(5) > n && Power256(6) > n && Power256(7) > n;
    NoHighByte(n, 4);
    NoHighByte(n, 5);
    NoHighByte(n, 6);
    NoHighByte(n, 7);
  }

  lemma LengthBytes(n: nat)
    requires n < 0x1_0000_0000
    ensures var s, x := BigEndian(n), ByteSwap32(Uint32(n));
            && s[0] == s[1] == s[2] == s[3] == 0
            && s[4] == (x & 0xff) as Byte && s[5] == ((x >> 8) & 0xff) as Byte
            && s[6] == ((x >> 16) & 0xff) as Byte && s[7] == ((x >> 24) & 0xff) as Byte
  {
    hide ByteOf, ByteSwap32, Load;
    NoHighBytes(n);
    SwappedBytes(ByteOf(n, 0), ByteOf(n, 1), ByteOf(n, 2), ByteOf(n, 3));
  }

  /** A 32-bit store on a little-endian machine. */
  method Store(bytes: array<Byte>, offset: nat, x: Word)
    requires offset + 4 <= bytes.Length
    modifies bytes
    ensures bytes[offset] == (x & 0xff) as Byte && bytes[offset + 1] == ((x >> 8) & 0xff) as Byte
    ensures bytes[offset + 2] == ((x >> 16) & 0xff) as Byte && bytes[offset + 3] == ((x >> 24) & 0xff) as Byte
    ensures forall j :: 0 <= j < bytes.Length && !(offset <= j < offset + 4) ==> bytes[j] == old(bytes[j])
  {
    bytes[offset] := (x & 0xff) as Byte;
    bytes[offset + 1] := ((x >> 8) & 0xff) as Byte;
    bytes[offset + 2] := ((x >> 16) & 0xff) as Byte;
    bytes[offset + 3] := ((x >> 24) & 0xff) as Byte;
  }

  method Clear(bytes: array<Byte>, from: nat, to: nat)
    requires from <= to <= bytes.Length
    modifies bytes
    ensures forall j :: 0 <= j < bytes.Length ==> bytes[j] == if from <= j < to then 0 else old(bytes[j])
  {
    for i := from to to
      invariant forall j :: 0 <= j < bytes.Length ==> bytes[j] == if from <= j < i then 0 else old(bytes[j])
    {
      bytes[i] := 0;
    }
  }

  /** The hash value to start from. */
  method Initialise(sha256: array<Word>)
    requires sha256.Length == 8
    modifies sha256
    ensures HashOf(sha256[..]) == INITIAL
  {
    sha256[0], sha256[1], sha256[2], sha256[3] := 0x6a09e667, 0xbb67ae85, 0x3c6ef372, 0xa54ff53a;
    sha256[4], sha256[5], sha256[6], sha256[7] := 0x510e527f, 0x9b05688c, 0x1f83d9ab, 0x5be0cd19;
  }

  /** A block in memory that is block `n` of the padded message `p` takes the hash on. */
  method HashNext(sha256: array<Word>, bytes: array<Byte>, offset: nat, ghost p: seq<Byte>, ghost n: nat)
    requires sha256.Length == 8 && offset + 64 <= bytes.Length && 64 * n + 64 <= |p|
    requires bytes[offset..offset + 64] == p[64 * n..64 * n + 64]
    requires HashOf(sha256[..]) == HashBlocks(p, n)
    modifies sha256
    ensures HashOf(sha256[..]) == HashBlocks(p, n + 1)
  {
    hide Compress, HashOf;
    Sha256Chunk(sha256, bytes, offset);
  }

  /** sha256sum: a loop over the full blocks of the message and one or two blocks of padding. */
  method Sha256Sum(sha256: array<Word>, msg: array<Byte>, size: nat)
    requires sha256.Length == 8 && size <= msg.Length && size < 0x1_0000_0000
    modifies sha256
    ensures var p := PaddedByProgram(msg[..size]); HashOf(sha256[..]) == HashBlocks(p, |p| / 64)
  {
    hide HashBlocks, HashOf, BigEndian, ByteSwap32, ShortLength, PadWith;
    ghost var m, p := msg[..size], PaddedByProgram(msg[..size]);
    var remainder := size % 64;
    var full := size - remainder;
    Initialise(sha256);
    assert HashBlocks(p, 0) == INITIAL by { NoBlocks(p); }
    var i := 0;
    ghost var n := 0;
    while i < full
      invariant i == 64 * n <= full
      invariant HashOf(sha256[..]) == HashBlocks(p, n)
    {
      assert msg[i..i + 64] == p[64 * n..64 * n + 64];
      HashNext(sha256, msg, i, p, n);
      i := i + 64;
      n := n + 1;
    }
    HashTail(sha256, msg, size, p, n);
  }

  lemma NoBlocks(p: seq<Byte>)
    ensures HashBlocks(p, 0) == INITIAL
  {
  }

  /** The rest of the message, the one bit and the zeros; if the length does not fit behind
      them they are a block of their own. */
  method HashTail(sha256: array<Word>, msg: array<Byte>, size: nat, ghost p: seq<Byte>, ghost n: nat)
    requires sha256.Length == 8 && size <= msg.Length && 64 * n == size - size % 64
    requires p == PaddedByProgram(msg[..size]) && HashOf(sha256[..]) == HashBlocks(p, n)
    modifies sha256
    ensures HashOf(sha256[..]) == HashBlocks(p, |p| / 64)
  {
    hide HashBlocks, HashOf, BigEndian, PadWith, ShortLength;
    ghost var m := msg[..size];
    var remainder := size % 64;
    var full := size - remainder;
    var padding := new Byte[64];
    for i := 0 to remainder
      invariant forall j :: 0 <= j < i ==> padding[j] == m[full + j]
      modifies padding
    {
      padding[i] := msg[full + i];
    }
    padding[remainder] := 0x80;
    assert sha256[..] == old(sha256[..]);
    if remainder >= 64 - 8 {
      Clear(padding, remainder + 1, 64);
      assert padding[0..64] == p[64 * n..64 * n + 64];
      HashNext(sha256, padding, 0, p, n);
      Clear(padding, 0, 60);
      assert forall j :: 0 <= j < 60 ==> LastByte(m, j) == 0;
      HashLast(sha256, padding, size, m, n + 1);
    } else {
      Clear(padding, remainder + 1, 60);
      assert forall j :: 0 <= j < 60 ==> padding[j] == LastByte(m, j);
      HashLast(sha256, padding, size, m, n);
    }
  }

  /** The length goes into the last block. */
  method HashLast(sha256: array<Word>, padding: array<Byte>, size: nat, ghost m: seq<Byte>, ghost n: nat)
    requires sha256.Length == 8 && padding.Length == 64 && size == |m|
    requires var p := PaddedByProgram(m); 64 * n + 64 == |p| && HashOf(sha256[..]) == HashBlocks(p, n)
    requires forall j :: 0 <= j < 60 ==> padding[j] == LastByte(m, j)
    modifies sha256, padding
    ensures var p := PaddedByProgram(m); HashOf(sha256[..]) == HashBlocks(p, |p| / 64)
  {
    hide HashBlocks, HashOf, BigEndian, ByteSwap32, Uint32, PadWith, LastByte, ShortLength;
    ghost var p := PaddedByProgram(m);
    var x := ByteSwap32(Uint32(ShortLength(size)));
    Store(padding, 60, x);
    LastBlock(m, padding[..], x);
    assert sha256[..] == old(sha256[..]);
    assert padding[0..0 + 64] == padding[..] && p[|p| - 64..] == p[64 * n..64 * n + 64];
    HashNext(sha256, padding, 0, p, n);
  }

  /** Byte `j` of the last block but for the length. */
  function LastByte(m: seq<Byte>, j: nat): Byte
    requires j < 60
  {
    var r := |m| % 64;
    if r >= 56 || j > r then 0 else if j == r then 0x80 else m[|m| - r + j]
  }

  /** The last block: what is left of the message and its end mark if they fit, zeros, and the length. */
  lemma LastBlock(m: seq<Byte>, b: seq<Byte>, x: Word)
    requires |b| == 64 && x == ByteSwap32(Uint32(ShortLength(|m|)))
    requires forall j :: 0 <= j < 60 ==> b[j] == LastByte(m, j)
    requires b[60] == (x & 0xff) as Byte && b[61] == ((x >> 8) & 0xff) as Byte
    requires b[62] == ((x >> 16) & 0xff) as Byte && b[63] == ((x >> 24) & 0xff) as Byte
    ensures var p := PaddedByProgram(m); b == p[|p| - 64..]
  {
    hide ByteSwap32, BigEndian, Uint32, PadWith;
    LengthBytes(ShortLength(|m|));
    var p := PaddedByProgram(m);
    var last := p[|p| - 64..];
    forall j | 0 <= j < 64
      ensures b[j] == last[j]
    {
      assert last[j] == p[|p| - 64 + j];
      if j >= 56 { assert last[j] == BigEndian(ShortLength(|m|))[j - 56]; }
    }
  }

  // ---- the promise ----

  lemma NotZero(k: nat)
    requires 0 < k < 256
    ensures k as Byte != 0
  {
  }

  /** Byte 4 of the bit length is lost from 2^29 bytes on. */
  lemma LostByte(size: nat)
    requires 0x2000_0000 <= size < 0x1_0000_0000
    ensures ByteOf(8 * size, 4) != 0
  {
    NotZero((8 * size) / Power256(4) % 256);
  }

  /** The program pads as the standard does exactly for messages of less than 2^29 bytes. */
  lemma PaddingIsStandard(m: seq<Byte>)
    requires |m| < 0x1_0000_0000
    ensures PaddedByProgram(m) == Pad(m) <==> |m| < 0x2000_0000
  {
    hide ByteOf, PadWith;
    var p, q := PaddedByProgram(m), Pad(m);
    if |m| >= 0x2000_0000 {
      NoHighBytes(ShortLength(|m|));
      LostByte(|m|);
      assert p[|p| - 5] == BigEndian(ShortLength(|m|))[3] && q[|p| - 5] == BigEndian(8 * |m|)[3];
    }
  }

  /** For these the result is the SHA-256 digest. */
  method Digest(sha256: array<Word>, msg: array<Byte>, size: nat)
    requires sha256.Length == 8 && size <= msg.Length && size < 0x2000_0000
    modifies sha256
    ensures HashOf(sha256[..]) == Sha256(msg[..size])
  {
    hide HashBlocks, HashOf, PadWith, ShortLength;
    PaddingIsStandard(msg[..size]);
    Sha256Sum(sha256, msg, size);
  }
}
