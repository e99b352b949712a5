/** The known answer of FIPS 180-4 for "abc", eight turns at a time. */
module Sha256Answer {
  import opened Sha256
  import C = Sha256Constants

  const ABC: seq<Byte> := [0x61, 0x62, 0x63]

  // ---- eight words and eight turns at a time ----

  /** Words `8 * j` to `8 * j + 7` of the constants and of a message schedule. */
  function Constants(j: nat): Hash
    requires j < 8
  {
    Hash(K[8 * j], K[8 * j + 1], K[8 * j + 2], K[8 * j + 3], K[8 * j + 4], K[8 * j + 5], K[8 * j + 6], K[8 * j + 7])
  }

  ghost function Words(b: Block, j: nat): Hash {
    Hash(Schedule(b, 8 * j), Schedule(b, 8 * j + 1), Schedule(b, 8 * j + 2), Schedule(b, 8 * j + 3),
         Schedule(b, 8 * j + 4), Schedule(b, 8 * j + 5), Schedule(b, 8 * j + 6), Schedule(b, 8 * j + 7))
  }

  /** The next eight words of a message schedule, from the sixteen before them. */
  function NextEight(p: Hash, q: Hash): Hash {
    var a := NextWord(q.g, q.b, p.b, p.a);
    var b := NextWord(q.h, q.c, p.c, p.b);
    var c := NextWord(a, q.d, p.d, p.c);
    var d := NextWord(b, q.e, p.e, p.d);
    var e := NextWord(c, q.f, p.f, p.e);
    var f := NextWord(d, q.g, p.g, p.f);
    var g := NextWord(e, q.h, p.h, p.g);
    Hash(a, b, c, d, e, f, g, NextWord(f, a, q.a, p.h))
  }

  function EightTurns(v: Hash, k: Hash, w: Hash): Hash {
    Round(Round(Round(Round(Round(Round(Round(Round(v, k.a, w.a), k.b, w.b), k.c, w.c), k.d, w.d), k.e, w.e), k.f, w.f), k.g, w.g), k.h, w.h)
  }

  lemma NextWords(b: Block, j: nat)
    ensures Words(b, j + 2) == NextEight(Words(b, j), Words(b, j + 1))
  {
    hide NextWord, Schedule;
    var t := 8 * j + 16;
    ScheduleNext(b, t);
    ScheduleNext(b, t + 1);
    ScheduleNext(b, t + 2);
    ScheduleNext(b, t + 3);
    ScheduleNext(b, t + 4);
    ScheduleNext(b, t + 5);
    ScheduleNext(b, t + 6);
    ScheduleNext(b, t + 7);
  }

  lemma OneTurn(v: Hash, b: Block, t: nat)
    requires t < 64
    ensures Rounds(v, b, t + 1) == Round(Rounds(v, b, t), K[t], Schedule(b, t))
  {
    hide Round, K, Schedule;
  }

  lemma NoTurns(b: Block)
    ensures Rounds(INITIAL, b, 0) == INITIAL
  {
  }

  lemma NextTurns(v: Hash, b: Block, j: nat)
    requires j < 8
    ensures Rounds(v, b, 8 * j + 8) == EightTurns(Rounds(v, b, 8 * j), Constants(j), Words(b, j))
  {
    hide Round, K, Schedule, Rounds;
    OneTurn(v, b, 8 * j);
    OneTurn(v, b, 8 * j + 1);
    OneTurn(v, b, 8 * j + 2);
    OneTurn(v, b, 8 * j + 3);
    OneTurn(v, b, 8 * j + 4);
    OneTurn(v, b, 8 * j + 5);
    OneTurn(v, b, 8 * j + 6);
    OneTurn(v, b, 8 * j + 7);
  }

  // ---- the padded message ----

  lemma {:induction false} PowersGrow(i: nat)
    requires i > 0
    ensures Power256(i) >= 256
  {
    if i > 1 { PowersGrow(i - 1); }
  }

  lemma BytesOf24(i: nat)
    ensures ByteOf(24, i) == if i == 0 then 24 else 0
  {
    if i > 0 {
      PowersGrow(i);
      NoHighByte(24, i);
    }
  }

  lemma LengthOf24()
    ensures BigEndian(24) == [0, 0, 0, 0, 0, 0, 0, 24]
  {
    hide ByteOf;
    forall i: nat
      ensures ByteOf(24, i) == if i == 0 then 24 else 0
    {
      BytesOf24(i);
    }
  }

  /** The message, the end mark, zeros, and its length in bits. */
  ghost predicate IsAbc(b: Block) {
    b[..4] == [0x61, 0x62, 0x63, 0x80] && (forall i :: 4 <= i < 63 ==> b[i] == 0) && b[63] == 24
  }

  lemma PaddedAbc() returns (b: Block)
    ensures Pad(ABC) == b
    ensures IsAbc(b)
  {
    hide BigEndian;
    LengthOf24();
    b := Pad(ABC);
  }

  lemma FirstWords(b: Block)
    requires IsAbc(b)

    ensures Words(b, 0) == Hash(0x61626380, 0x00000000, 0x00000000, 0x00000000, 0x00000000, 0x00000000, 0x00000000, 0x00000000)
    ensures Words(b, 1) == Hash(0x00000000, 0x00000000, 0x00000000, 0x00000000, 0x00000000, 0x00000000, 0x00000000, 0x00000018)
  {
    assert b[..4][0] == b[0] && b[..4][1] == b[1] && b[..4][2] == b[2] && b[..4][3] == b[3];
    assert BlockWord(b, 0) == 0x61626380;
    forall t | 0 < t < 15
      ensures BlockWord(b, t) == 0
    {
    }
    assert BlockWord(b, 15) == 24;
    hide BlockWord;
  }

  // ---- the schedule and the turns for it ----

  /** The message schedule of the block. */
  const WORDS: seq<Hash> := [
    Hash(0x61626380, 0x00000000, 0x00000000, 0x00000000, 0x00000000, 0x00000000, 0x00000000, 0x00000000),
    Hash(0x00000000, 0x00000000, 0x00000000, 0x00000000, 0x00000000, 0x00000000, 0x00000000, 0x00000018),
    Hash(0x61626380, 0x000f0000, 0x7da86405, 0x600003c6, 0x3e9d7b78, 0x0183fc00, 0x12dcbfdb, 0xe2e2c38e),
    Hash(0xc8215c1a, 0xb73679a2, 0xe5bc3909, 0x32663c5b, 0x9d209d67, 0xec8726cb, 0x702138a4, 0xd3b7973b),
    Hash(0x93f5997f, 0x3b68ba73, 0xaff4ffc1, 0xf10a5c62, 0x0a8b3996, 0x72af830a, 0x9409e33e, 0x24641522),
    Hash(0x9f47bf94, 0xf0a64f5a, 0x3e246a79, 0x27333ba3, 0x0c4763f2, 0x840abf27, 0x7a290d5d, 0x065c43da),
    Hash(0xfb3e89cb, 0xcc7617db, 0xb9e66c34, 0xa9993667, 0x84badedd, 0xc21462bc, 0x1487472c, 0xb20f7a99),
    Hash(0xef57b9cd, 0xebe6b238, 0x9fe3095e, 0x78bc8d4b, 0xa43fcf15, 0x668b2ff8, 0xeeaba2cc, 0x12b1edeb)]

  /** The working variables after every eight turns. */
  const STATES: seq<Hash> := [
    Hash(0x6a09e667, 0xbb67ae85, 0x3c6ef372, 0xa54ff53a, 0x510e527f, 0x9b05688c, 0x1f83d9ab, 0x5be0cd19),
    Hash(0x85a07b5f, 0xe5030380, 0x2b4209f5, 0x04409a6a, 0x0c657a79, 0x9b27a401, 0x714260ad, 0x43ada245),
    Hash(0xb0fa238e, 0xc0645fde, 0xd932eb16, 0x87912990, 0x07590dcd, 0x0b92f20c, 0x745a48de, 0x1e578218),
    Hash(0xc5d53d8d, 0xa7a3623f, 0xc2606d6d, 0x9dc68b63, 0xaa47c347, 0x49f5114a, 0xe1257970, 0x8ada8930),
    Hash(0x73b33bf5, 0xea992a22, 0xa0060b30, 0x363482c9, 0xba591112, 0x0109ab3a, 0xade79437, 0x6112a3b7),
    Hash(0x79ea687a, 0x6dc57a8a, 0x34df1604, 0x41a65cb1, 0x1efbc0a0, 0xf0781bc8, 0xa507a53d, 0x0772a26b),
    Hash(0x4172328d, 0xa14c14b0, 0x72ab4b91, 0x26628815, 0xfecf0bc6, 0xd57b94a9, 0xb7755da1, 0xa80f11f0),
    Hash(0x38cc9913, 0x3ec45cdb, 0xf5702fdb, 0x101fd28f, 0x54cb266b, 0xe50e1b4f, 0x9f4787c3, 0x529e7d00),
    Hash(0x506e3058, 0xd39a2165, 0x04d24d6c, 0xb85e2ce9, 0x5ef50f24, 0xfb121210, 0x948d25b6, 0x961f4894)]

  lemma Schedule16()
    ensures NextEight(Hash(0x61626380, 0x00000000, 0x00000000, 0x00000000, 0x00000000, 0x00000000, 0x00000000, 0x00000000),
                      Hash(0x00000000, 0x00000000, 0x00000000, 0x00000000, 0x00000000, 0x00000000, 0x00000000, 0x00000018)) ==
            Hash(0x61626380, 0x000f0000, 0x7da86405, 0x600003c6, 0x3e9d7b78, 0x0183fc00, 0x12dcbfdb, 0xe2e2c38e)
  {
    assert NextWord(0x00000000, 0x00000000, 0x00000000, 0x61626380) == 0x61626380;
    assert NextWord(0x00000018, 0x00000000, 0x00000000, 0x00000000) == 0x000f0000;
    assert NextWord(0x61626380, 0x00000000, 0x00000000, 0x00000000) == 0x7da86405;
    assert NextWord(0x000f0000, 0x00000000, 0x00000000, 0x00000000) == 0x600003c6;
    assert NextWord(0x7da86405, 0x00000000, 0x00000000, 0x00000000) == 0x3e9d7b78;
    assert NextWord(0x600003c6, 0x00000000, 0x00000000, 0x00000000) == 0x0183fc00;
    assert NextWord(0x3e9d7b78, 0x00000018, 0x00000000, 0x00000000) == 0x12dcbfdb;
    assert NextWord(0x0183fc00, 0x61626380, 0x00000000, 0x00000000) == 0xe2e2c38e;
    hide NextWord;
  }

  lemma Schedule24()
    ensures NextEight(Hash(0x00000000, 0x00000000, 0x00000000, 0x00000000, 0x00000000, 0x00000000, 0x00000000, 0x00000018),
                      Hash(0x61626380, 0x000f0000, 0x7da86405, 0x600003c6, 0x3e9d7b78, 0x0183fc00, 0x12dcbfdb, 0xe2e2c38e)) ==
            Hash(0xc8215c1a, 0xb73679a2, 0xe5bc3909, 0x32663c5b, 0x9d209d67, 0xec8726cb, 0x702138a4, 0xd3b7973b)
  {
    assert NextWord(0x12dcbfdb, 0x000f0000, 0x00000000, 0x00000000) == 0xc8215c1a;
    assert NextWord(0xe2e2c38e, 0x7da86405, 0x00000000, 0x00000000) == 0xb73679a2;
    assert NextWord(0xc8215c1a, 0x600003c6, 0x00000000, 0x00000000) == 0xe5bc3909;
    assert NextWord(0xb73679a2, 0x3e9d7b78, 0x00000000, 0x00000000) == 0x32663c5b;
    assert NextWord(0xe5bc3909, 0x0183fc00, 0x00000000, 0x00000000) == 0x9d209d67;
    assert NextWord(0x32663c5b, 0x12dcbfdb, 0x00000000, 0x00000000) == 0xec8726cb;
    assert NextWord(0x9d209d67, 0xe2e2c38e, 0x00000018, 0x00000000) == 0x702138a4;
    assert NextWord(0xec8726cb, 0xc8215c1a, 0x61626380, 0x00000018) == 0xd3b7973b;
    hide NextWord;
  }

  lemma Schedule32()
    ensures NextEight(Hash(0x61626380, 0x000f0000, 0x7da86405, 0x600003c6, 0x3e9d7b78, 0x0183fc00, 0x12dcbfdb, 0xe2e2c38e),
                      Hash(0xc8215c1a, 0xb73679a2, 0xe5bc3909, 0x32663c5b, 0x9d209d67, 0xec8726cb, 0x702138a4, 0xd3b7973b)) ==
            Hash(0x93f5997f, 0x3b68ba73, 0xaff4ffc1, 0xf10a5c62, 0x0a8b3996, 0x72af830a, 0x9409e33e, 0x24641522)
  {
    assert NextWord(0x702138a4, 0xb73679a2, 0x000f0000, 0x61626380) == 0x93f5997f;
    assert NextWord(0xd3b7973b, 0xe5bc3909, 0x7da86405, 0x000f0000) == 0x3b68ba73;
    assert NextWord(0x93f5997f, 0x32663c5b, 0x600003c6, 0x7da86405) == 0xaff4ffc1;
    assert NextWord(0x3b68ba73, 0x9d209d67, 0x3e9d7b78, 0x600003c6) == 0xf10a5c62;
    assert NextWord(0xaff4ffc1, 0xec8726cb, 0x0183fc00, 0x3e9d7b78) == 0x0a8b3996;
    assert NextWord(0xf10a5c62, 0x702138a4, 0x12dcbfdb, 0x0183fc00) == 0x72af830a;
    assert NextWord(0x0a8b3996, 0xd3b7973b, 0xe2e2c38e, 0x12dcbfdb) == 0x9409e33e;
    assert NextWord(0x72af830a, 0x93f5997f, 0xc8215c1a, 0xe2e2c38e) == 0x24641522;
    hide NextWord;
  }

  lemma Schedule40()
    ensures NextEight(Hash(0xc8215c1a, 0xb73679a2, 0xe5bc3909, 0x32663c5b, 0x9d209d67, 0xec8726cb, 0x702138a4, 0xd3b7973b),
                      Hash(0x93f5997f, 0x3b68ba73, 0xaff4ffc1, 0xf10a5c62, 0x0a8b3996, 0x72af830a, 0x9409e33e, 0x24641522)) ==
            Hash(0x9f47bf94, 0xf0a64f5a, 0x3e246a79, 0x27333ba3, 0x0c4763f2, 0x840abf27, 0x7a290d5d, 0x065c43da)
  {
    assert NextWord(0x9409e33e, 0x3b68ba73, 0xb73679a2, 0xc8215c1a) == 0x9f47bf94;
    assert NextWord(0x24641522, 0xaff4ffc1, 0xe5bc3909, 0xb73679a2) == 0xf0a64f5a;
    assert NextWord(0x9f47bf94, 0xf10a5c62, 0x32663c5b, 0xe5bc3909) == 0x3e246a79;
    assert NextWord(0xf0a64f5a, 0x0a8b3996, 0x9d209d67, 0x32663c5b) == 0x27333ba3;
    assert NextWord(0x3e246a79, 0x72af830a, 0xec8726cb, 0x9d209d67) == 0x0c4763f2;
    assert NextWord(0x27333ba3, 0x9409e33e, 0x702138a4, 0xec8726cb) == 0x840abf27;
    assert NextWord(0x0c4763f2, 0x24641522, 0xd3b7973b, 0x702138a4) == 0x7a290d5d;
    assert NextWord(0x840abf27, 0x9f47bf94, 0x93f5997f, 0xd3b7973b) == 0x065c43da;
    hide NextWord;
  }

  lemma Schedule48()
    ensures NextEight(Hash(0x93f5997f, 0x3b68ba73, 0xaff4ffc1, 0xf10a5c62, 0x0a8b3996, 0x72af830a, 0x9409e33e, 0x24641522),
                      Hash(0x9f47bf94, 0xf0a64f5a, 0x3e246a79, 0x27333ba3, 0x0c4763f2, 0x840abf27, 0x7a290d5d, 0x065c43da)) ==
            Hash(0xfb3e89cb, 0xcc7617db, 0xb9e66c34, 0xa9993667, 0x84badedd, 0xc21462bc, 0x1487472c, 0xb20f7a99)
  {
    assert NextWord(0x7a290d5d, 0xf0a64f5a, 0x3b68ba73, 0x93f5997f) == 0xfb3e89cb;
    assert NextWord(0x065c43da, 0x3e246a79, 0xaff4ffc1, 0x3b68ba73) == 0xcc7617db;
    assert NextWord(0xfb3e89cb, 0x27333ba3, 0xf10a5c62, 0xaff4ffc1) == 0xb9e66c34;
    assert NextWord(0xcc7617db, 0x0c4763f2, 0x0a8b3996, 0xf10a5c62) == 0xa9993667;
    assert NextWord(0xb9e66c34, 0x840abf27, 0x72af830a, 0x0a8b3996) == 0x84badedd;
    assert NextWord(0xa9993667, 0x7a290d5d, 0x9409e33e, 0x72af830a) == 0xc21462bc;
    assert NextWord(0x84badedd, 0x065c43da, 0x24641522, 0x9409e33e) == 0x1487472c;
    assert NextWord(0xc21462bc, 0xfb3e89cb, 0x9f47bf94, 0x24641522) == 0xb20f7a99;
    hide NextWord;
  }

  lemma Schedule56()
    ensures NextEight(Hash(0x9f47bf94, 0xf0a64f5a, 0x3e246a79, 0x27333ba3, 0x0c4763f2, 0x840abf27, 0x7a290d5d, 0x065c43da),
                      Hash(0xfb3e89cb, 0xcc7617db, 0xb9e66c34, 0xa9993667, 0x84badedd, 0xc21462bc, 0x1487472c, 0xb20f7a99)) ==
            Hash(0xef57b9cd, 0xebe6b238, 0x9fe3095e, 0x78bc8d4b, 0xa43fcf15, 0x668b2ff8, 0xeeaba2cc, 0x12b1edeb)
  {
    assert NextWord(0x1487472c, 0xcc7617db, 0xf0a64f5a, 0x9f47bf94) == 0xef57b9cd;
    assert NextWord(0xb20f7a99, 0xb9e66c34, 0x3e246a79, 0xf0a64f5a) == 0xebe6b238;
    assert NextWord(0xef57b9cd, 0xa9993667, 0x27333ba3, 0x3e246a79) == 0x9fe3095e;
    assert NextWord(0xebe6b238, 0x84badedd, 0x0c4763f2, 0x27333ba3) == 0x78bc8d4b;
    assert NextWord(0x9fe3095e, 0xc21462bc, 0x840abf27, 0x0c4763f2) == 0xa43fcf15;
    assert NextWord(0x78bc8d4b, 0x1487472c, 0x7a290d5d, 0x840abf27) == 0x668b2ff8;
    assert NextWord(0xa43fcf15, 0xb20f7a99, 0x065c43da, 0x7a290d5d) == 0xeeaba2cc;
    assert NextWord(0x668b2ff8, 0xef57b9cd, 0xfb3e89cb, 0x065c43da) == 0x12b1edeb;
    hide NextWord;
  }

  /** The two new words of a turn; the others move on. */
  function Shifted(v: Hash, a: Word, e: Word): Hash { Hash(a, v.a, v.b, v.c, e, v.e, v.f, v.g) }

  lemma Turns0()
    ensures EightTurns(Hash(0x6a09e667, 0xbb67ae85, 0x3c6ef372, 0xa54ff53a, 0x510e527f, 0x9b05688c, 0x1f83d9ab, 0x5be0cd19),
                       Hash(0x428a2f98, 0x71374491, 0xb5c0fbcf, 0xe9b5dba5, 0x3956c25b, 0x59f111f1, 0x923f82a4, 0xab1c5ed5),
                       Hash(0x61626380, 0x00000000, 0x00000000, 0x00000000, 0x00000000, 0x00000000, 0x00000000, 0x00000000)) ==
            Hash(0x85a07b5f, 0xe5030380, 0x2b4209f5, 0x04409a6a, 0x0c657a79, 0x9b27a401, 0x714260ad, 0x43ada245)
  {
    var v0 := Hash(0x6a09e667, 0xbb67ae85, 0x3c6ef372, 0xa54ff53a, 0x510e527f, 0x9b05688c, 0x1f83d9ab, 0x5be0cd19);
    var v1 := Shifted(v0, 0x5d6aebcd, 0xfa2a4622);
    assert Round(v0, 0x428a2f98, 0x61626380) == v1;
    var v2 := Shifted(v1, 0x5a6ad9ad, 0x78ce7989);
    assert Round(v1, 0x71374491, 0x00000000) == v2;
    var v3 := Shifted(v2, 0xc8c347a7, 0xf92939eb);
    assert Round(v2, 0xb5c0fbcf, 0x00000000) == v3;
    var v4 := Shifted(v3, 0xd550f666, 0x24e00850);
    assert Round(v3, 0xe9b5dba5, 0x00000000) == v4;
    var v5 := Shifted(v4, 0x04409a6a, 0x43ada245);
    assert Round(v4, 0x3956c25b, 0x00000000) == v5;
    var v6 := Shifted(v5, 0x2b4209f5, 0x714260ad);
    assert Round(v5, 0x59f111f1, 0x00000000) == v6;
    var v7 := Shifted(v6, 0xe5030380, 0x9b27a401);
    assert Round(v6, 0x923f82a4, 0x00000000) == v7;
    var v8 := Shifted(v7, 0x85a07b5f, 0x0c657a79);
    assert Round(v7, 0xab1c5ed5, 0x00000000) == v8;
    hide Round;
  }

  lemma Turns8()
    ensures EightTurns(Hash(0x85a07b5f, 0xe5030380, 0x2b4209f5, 0x04409a6a, 0x0c657a79, 0x9b27a401, 0x714260ad, 0x43ada245),
                       Hash(0xd807aa98, 0x12835b01, 0x243185be, 0x550c7dc3, 0x72be5d74, 0x80deb1fe, 0x9bdc06a7, 0xc19bf174),
                       Hash(0x00000000, 0x00000000, 0x00000000, 0x00000000, 0x00000000, 0x00000000, 0x00000000, 0x00000018)) ==
            Hash(0xb0fa238e, 0xc0645fde, 0xd932eb16, 0x87912990, 0x07590dcd, 0x0b92f20c, 0x745a48de, 0x1e578218)
  {
    var v0 := Hash(0x85a07b5f, 0xe5030380, 0x2b4209f5, 0x04409a6a, 0x0c657a79, 0x9b27a401, 0x714260ad, 0x43ada245);
    var v1 := Shifted(v0, 0x8e04ecb9, 0x32ca2d8c);
    assert Round(v0, 0xd807aa98, 0x00000000) == v1;
    var v2 := Shifted(v1, 0x8c87346b, 0x1cc92596);
    assert Round(v1, 0x12835b01, 0x00000000) == v2;
    var v3 := Shifted(v2, 0x4798a3f4, 0x436b23e8);
    assert Round(v2, 0x243185be, 0x00000000) == v3;
    var v4 := Shifted(v3, 0xf71fc5a9, 0x816fd6e9);
    assert Round(v3, 0x550c7dc3, 0x00000000) == v4;
    var v5 := Shifted(v4, 0x87912990, 0x1e578218);
    assert Round(v4, 0x72be5d74, 0x00000000) == v5;
    var v6 := Shifted(v5, 0xd932eb16, 0x745a48de);
    assert Round(v5, 0x80deb1fe, 0x00000000) == v6;
    var v7 := Shifted(v6, 0xc0645fde, 0x0b92f20c);
    assert Round(v6, 0x9bdc06a7, 0x00000000) == v7;
    var v8 := Shifted(v7, 0xb0fa238e, 0x07590dcd);
    assert Round(v7, 0xc19bf174, 0x00000018) == v8;
    hide Round;
  }

  lemma Turns16()
    ensures EightTurns(Hash(0xb0fa238e, 0xc0645fde, 0xd932eb16, 0x87912990, 0x07590dcd, 0x0b92f20c, 0x745a48de, 0x1e578218),
                       Hash(0xe49b69c1, 0xefbe4786, 0x0fc19dc6, 0x240ca1cc, 0x2de92c6f, 0x4a7484aa, 0x5cb0a9dc, 0x76f988da),
                       Hash(0x61626380, 0x000f0000, 0x7da86405, 0x600003c6, 0x3e9d7b78, 0x0183fc00, 0x12dcbfdb, 0xe2e2c38e)) ==
            Hash(0xc5d53d8d, 0xa7a3623f, 0xc2606d6d, 0x9dc68b63, 0xaa47c347, 0x49f5114a, 0xe1257970, 0x8ada8930)
  {
    var v0 := Hash(0xb0fa238e, 0xc0645fde, 0xd932eb16, 0x87912990, 0x07590dcd, 0x0b92f20c, 0x745a48de, 0x1e578218);
    var v1 := Shifted(v0, 0x21da9a9b, 0x8034229c);
    assert Round(v0, 0xe49b69c1, 0x61626380) == v1;
    var v2 := Shifted(v1, 0xc2fbd9d1, 0x846ee454);
    assert Round(v1, 0xefbe4786, 0x000f0000) == v2;
    var v3 := Shifted(v2, 0xfe777bbf, 0xcc899961);
    assert Round(v2, 0x0fc19dc6, 0x7da86405) == v3;
    var v4 := Shifted(v3, 0xe1f20c33, 0xb0638179);
    assert Round(v3, 0x240ca1cc, 0x600003c6) == v4;
    var v5 := Shifted(v4, 0x9dc68b63, 0x8ada8930);
    assert Round(v4, 0x2de92c6f, 0x3e9d7b78) == v5;
    var v6 := Shifted(v5, 0xc2606d6d, 0xe1257970);
    assert Round(v5, 0x4a7484aa, 0x0183fc00) == v6;
    var v7 := Shifted(v6, 0xa7a3623f, 0x49f5114a);
    assert Round(v6, 0x5cb0a9dc, 0x12dcbfdb) == v7;
    var v8 := Shifted(v7, 0xc5d53d8d, 0xaa47c347);
    assert Round(v7, 0x76f988da, 0xe2e2c38e) == v8;
    hide Round;
  }

  lemma Turns24()
    ensures EightTurns(Hash(0xc5d53d8d, 0xa7a3623f, 0xc2606d6d, 0x9dc68b63, 0xaa47c347, 0x49f5114a, 0xe1257970, 0x8ada8930),
                       Hash(0x983e5152, 0xa831c66d, 0xb00327c8, 0xbf597fc7, 0xc6e00bf3, 0xd5a79147, 0x06ca6351, 0x14292967),
                       Hash(0xc8215c1a, 0xb73679a2, 0xe5bc3909, 0x32663c5b, 0x9d209d67, 0xec8726cb, 0x702138a4, 0xd3b7973b)) ==
            Hash(0x73b33bf5, 0xea992a22, 0xa0060b30, 0x363482c9, 0xba591112, 0x0109ab3a, 0xade79437, 0x6112a3b7)
  {
    var v0 := Hash(0xc5d53d8d, 0xa7a3623f, 0xc2606d6d, 0x9dc68b63, 0xaa47c347, 0x49f5114a, 0xe1257970, 0x8ada8930);
    var v1 := Shifted(v0, 0x1c2c2838, 0x2823ef91);
    assert Round(v0, 0x983e5152, 0xc8215c1a) == v1;
    var v2 := Shifted(v1, 0xcde8037d, 0x14383d8e);
    assert Round(v1, 0xa831c66d, 0xb73679a2) == v2;
    var v3 := Shifted(v2, 0xb62ec4bc, 0xc74c6516);
    assert Round(v2, 0xb00327c8, 0xe5bc3909) == v3;
    var v4 := Shifted(v3, 0x77d37528, 0xedffbff8);
    assert Round(v3, 0xbf597fc7, 0x32663c5b) == v4;
    var v5 := Shifted(v4, 0x363482c9, 0x6112a3b7);
    assert Round(v4, 0xc6e00bf3, 0x9d209d67) == v5;
    var v6 := Shifted(v5, 0xa0060b30, 0xade79437);
    assert Round(v5, 0xd5a79147, 0xec8726cb) == v6;
    var v7 := Shifted(v6, 0xea992a22, 0x0109ab3a);
    assert Round(v6, 0x06ca6351, 0x702138a4) == v7;
    var v8 := Shifted(v7, 0x73b33bf5, 0xba591112);
    assert Round(v7, 0x14292967, 0xd3b7973b) == v8;
    hide Round;
  }

  lemma Turns32()
    ensures EightTurns(Hash(0x73b33bf5, 0xea992a22, 0xa0060b30, 0x363482c9, 0xba591112, 0x0109ab3a, 0xade79437, 0x6112a3b7),
                       Hash(0x27b70a85, 0x2e1b2138, 0x4d2c6dfc, 0x53380d13, 0x650a7354, 0x766a0abb, 0x81c2c92e, 0x92722c85),
                       Hash(0x93f5997f, 0x3b68ba73, 0xaff4ffc1, 0xf10a5c62, 0x0a8b3996, 0x72af830a, 0x9409e33e, 0x24641522)) ==
            Hash(0x79ea687a, 0x6dc57a8a, 0x34df1604, 0x41a65cb1, 0x1efbc0a0, 0xf0781bc8, 0xa507a53d, 0x0772a26b)
  {
    var v0 := Hash(0x73b33bf5, 0xea992a22, 0xa0060b30, 0x363482c9, 0xba591112, 0x0109ab3a, 0xade79437, 0x6112a3b7);
    var v1 := Shifted(v0, 0x98e12507, 0x9cd9f5f6);
    assert Round(v0, 0x27b70a85, 0x93f5997f) == v1;
    var v2 := Shifted(v1, 0xfe604df5, 0x59249dd3);
    assert Round(v1, 0x2e1b2138, 0x3b68ba73) == v2;
    var v3 := Shifted(v2, 0xa9a7738c, 0x085f3833);
    assert Round(v2, 0x4d2c6dfc, 0xaff4ffc1) == v3;
    var v4 := Shifted(v3, 0x65a0cfe4, 0xf4b002d6);
    assert Round(v3, 0x53380d13, 0xf10a5c62) == v4;
    var v5 := Shifted(v4, 0x41a65cb1, 0x0772a26b);
    assert Round(v4, 0x650a7354, 0x0a8b3996) == v5;
    var v6 := Shifted(v5, 0x34df1604, 0xa507a53d);
    assert Round(v5, 0x766a0abb, 0x72af830a) == v6;
    var v7 := Shifted(v6, 0x6dc57a8a, 0xf0781bc8);
    assert Round(v6, 0x81c2c92e, 0x9409e33e) == v7;
    var v8 := Shifted(v7, 0x79ea687a, 0x1efbc0a0);
    assert Round(v7, 0x92722c85, 0x24641522) == v8;
    hide Round;
  }

  lemma Turns40()
    ensures EightTurns(Hash(0x79ea687a, 0x6dc57a8a, 0x34df1604, 0x41a65cb1, 0x1efbc0a0, 0xf0781bc8, 0xa507a53d, 0x0772a26b),
                       Hash(0xa2bfe8a1, 0xa81a664b, 0xc24b8b70, 0xc76c51a3, 0xd192e819, 0xd6990624, 0xf40e3585, 0x106aa070),
                       Hash(0x9f47bf94, 0xf0a64f5a, 0x3e246a79, 0x27333ba3, 0x0c4763f2, 0x840abf27, 0x7a290d5d, 0x065c43da)) ==
            Hash(0x4172328d, 0xa14c14b0, 0x72ab4b91, 0x26628815, 0xfecf0bc6, 0xd57b94a9, 0xb7755da1, 0xa80f11f0)
  {
    var v0 := Hash(0x79ea687a, 0x6dc57a8a, 0x34df1604, 0x41a65cb1, 0x1efbc0a0, 0xf0781bc8, 0xa507a53d, 0x0772a26b);
    var v1 := Shifted(v0, 0xd6670766, 0x26352d63);
    assert Round(v0, 0xa2bfe8a1, 0x9f47bf94) == v1;
    var v2 := Shifted(v1, 0xdf46652f, 0x838b2711);
    assert Round(v1, 0xa81a664b, 0xf0a64f5a) == v2;
    var v3 := Shifted(v2, 0x17aa0dfe, 0xdecd4715);
    assert Round(v2, 0xc24b8b70, 0x3e246a79) == v3;
    var v4 := Shifted(v3, 0x9d4baf93, 0xfda24c2e);
    assert Round(v3, 0xc76c51a3, 0x27333ba3) == v4;
    var v5 := Shifted(v4, 0x26628815, 0xa80f11f0);
    assert Round(v4, 0xd192e819, 0x0c4763f2) == v5;
    var v6 := Shifted(v5, 0x72ab4b91, 0xb7755da1);
    assert Round(v5, 0xd6990624, 0x840abf27) == v6;
    var v7 := Shifted(v6, 0xa14c14b0, 0xd57b94a9);
    assert Round(v6, 0xf40e3585, 0x7a290d5d) == v7;
    var v8 := Shifted(v7, 0x4172328d, 0xfecf0bc6);
    assert Round(v7, 0x106aa070, 0x065c43da) == v8;
    hide Round;
  }

  lemma Turns48()
    ensures EightTurns(Hash(0x4172328d, 0xa14c14b0, 0x72ab4b91, 0x26628815, 0xfecf0bc6, 0xd57b94a9, 0xb7755da1, 0xa80f11f0),
                       Hash(0x19a4c116, 0x1e376c08, 0x2748774c, 0x34b0bcb5, 0x391c0cb3, 0x4ed8aa4a, 0x5b9cca4f, 0x682e6ff3),
                       Hash(0xfb3e89cb, 0xcc7617db, 0xb9e66c34, 0xa9993667, 0x84badedd, 0xc21462bc, 0x1487472c, 0xb20f7a99)) ==
            Hash(0x38cc9913, 0x3ec45cdb, 0xf5702fdb, 0x101fd28f, 0x54cb266b, 0xe50e1b4f, 0x9f4787c3, 0x529e7d00)
  {
    var v0 := Hash(0x4172328d, 0xa14c14b0, 0x72ab4b91, 0x26628815, 0xfecf0bc6, 0xd57b94a9, 0xb7755da1, 0xa80f11f0);
    var v1 := Shifted(v0, 0x05757ceb, 0xbd714038);
    assert Round(v0, 0x19a4c116, 0xfb3e89cb) == v1;
    var v2 := Shifted(v1, 0xf11bfaa8, 0x6e5c390c);
    assert Round(v1, 0x1e376c08, 0xcc7617db) == v2;
    var v3 := Shifted(v2, 0x7a0508a1, 0x52f1ccf7);
    assert Round(v2, 0x2748774c, 0xb9e66c34) == v3;
    var v4 := Shifted(v3, 0x886e7a22, 0x49231c1e);
    assert Round(v3, 0x34b0bcb5, 0xa9993667) == v4;
    var v5 := Shifted(v4, 0x101fd28f, 0x529e7d00);
    assert Round(v4, 0x391c0cb3, 0x84badedd) == v5;
    var v6 := Shifted(v5, 0xf5702fdb, 0x9f4787c3);
    assert Round(v5, 0x4ed8aa4a, 0xc21462bc) == v6;
    var v7 := Shifted(v6, 0x3ec45cdb, 0xe50e1b4f);
    assert Round(v6, 0x5b9cca4f, 0x1487472c) == v7;
    var v8 := Shifted(v7, 0x38cc9913, 0x54cb266b);
    assert Round(v7, 0x682e6ff3, 0xb20f7a99) == v8;
    hide Round;
  }

  lemma Turns56()
    ensures EightTurns(Hash(0x38cc9913, 0x3ec45cdb, 0xf5702fdb, 0x101fd28f, 0x54cb266b, 0xe50e1b4f, 0x9f4787c3, 0x529e7d00),
                       Hash(0x748f82ee, 0x78a5636f, 0x84c87814, 0x8cc70208, 0x90befffa, 0xa4506ceb, 0xbef9a3f7, 0xc67178f2),
                       Hash(0xef57b9cd, 0xebe6b238, 0x9fe3095e, 0x78bc8d4b, 0xa43fcf15, 0x668b2ff8, 0xeeaba2cc, 0x12b1edeb)) ==
            Hash(0x506e3058, 0xd39a2165, 0x04d24d6c, 0xb85e2ce9, 0x5ef50f24, 0xfb121210, 0x948d25b6, 0x961f4894)
  {
    var v0 := Hash(0x38cc9913, 0x3ec45cdb, 0xf5702fdb, 0x101fd28f, 0x54cb266b, 0xe50e1b4f, 0x9f4787c3, 0x529e7d00);
    var v1 := Shifted(v0, 0xfcd1887b, 0x9b5e906c);
    assert Round(v0, 0x748f82ee, 0xef57b9cd) == v1;
    var v2 := Shifted(v1, 0xc062d46f, 0x7e44008e);
    assert Round(v1, 0x78a5636f, 0xebe6b238) == v2;
    var v3 := Shifted(v2, 0xffb70472, 0x6d83bfc6);
    assert Round(v2, 0x84c87814, 0x9fe3095e) == v3;
    var v4 := Shifted(v3, 0xb6ae8fff, 0xb21bad3d);
    assert Round(v3, 0x8cc70208, 0x78bc8d4b) == v4;
    var v5 := Shifted(v4, 0xb85e2ce9, 0x961f4894);
    assert Round(v4, 0x90befffa, 0xa43fcf15) == v5;
    var v6 := Shifted(v5, 0x04d24d6c, 0x948d25b6);
    assert Round(v5, 0xa4506ceb, 0x668b2ff8) == v6;
    var v7 := Shifted(v6, 0xd39a2165, 0xfb121210);
    assert Round(v6, 0xbef9a3f7, 0xeeaba2cc) == v7;
    var v8 := Shifted(v7, 0x506e3058, 0x5ef50f24);
    assert Round(v7, 0xc67178f2, 0x12b1edeb) == v8;
    hide Round;
  }

  lemma NextSchedule(j: nat)
    requires j < 6
    ensures NextEight(WORDS[j], WORDS[j + 1]) == WORDS[j + 2]
  {
    hide NextEight;
    match j
    case 0 => Schedule16();
    case 1 => Schedule24();
    case 2 => Schedule32();
    case 3 => Schedule40();
    case 4 => Schedule48();
    case _ => Schedule56();
  }

  lemma {:induction false} AbcWords(b: Block, j: nat)
    requires IsAbc(b) && j < 8
    ensures Words(b, j) == WORDS[j]
  {
    hide Words, NextEight, IsAbc;
    if j < 2 {
      FirstWords(b);
    } else {
      AbcWords(b, j - 2);
      AbcWords(b, j - 1);
      NextWords(b, j - 2);
      NextSchedule(j - 2);
    }
  }

  lemma Constants0()
    ensures Constants(0) == Hash(0x428a2f98, 0x71374491, 0xb5c0fbcf, 0xe9b5dba5, 0x3956c25b, 0x59f111f1, 0x923f82a4, 0xab1c5ed5)
  {
    hide K;
    C.Words0();
  }

  lemma Constants8()
    ensures Constants(1) == Hash(0xd807aa98, 0x12835b01, 0x243185be, 0x550c7dc3, 0x72be5d74, 0x80deb1fe, 0x9bdc06a7, 0xc19bf174)
  {
    hide K;
    C.Words8();
  }

  lemma Constants16()
    ensures Constants(2) == Hash(0xe49b69c1, 0xefbe4786, 0x0fc19dc6, 0x240ca1cc, 0x2de92c6f, 0x4a7484aa, 0x5cb0a9dc, 0x76f988da)
  {
    hide K;
    C.Words16();
  }

  lemma Constants24()
    ensures Constants(3) == Hash(0x983e5152, 0xa831c66d, 0xb00327c8, 0xbf597fc7, 0xc6e00bf3, 0xd5a79147, 0x06ca6351, 0x14292967)
  {
    hide K;
    C.Words24();
  }

  lemma Constants32()
    ensures Constants(4) == Hash(0x27b70a85, 0x2e1b2138, 0x4d2c6dfc, 0x53380d13, 0x650a7354, 0x766a0abb, 0x81c2c92e, 0x92722c85)
  {
    hide K;
    C.Words32();
  }

  lemma Constants40()
    ensures Constants(5) == Hash(0xa2bfe8a1, 0xa81a664b, 0xc24b8b70, 0xc76c51a3, 0xd192e819, 0xd6990624, 0xf40e3585, 0x106aa070)
  {
    hide K;
    C.Words40();
  }

  lemma Constants48()
    ensures Constants(6) == Hash(0x19a4c116, 0x1e376c08, 0x2748774c, 0x34b0bcb5, 0x391c0cb3, 0x4ed8aa4a, 0x5b9cca4f, 0x682e6ff3)
  {
    hide K;
    C.Words48();
  }

  lemma Constants56()
    ensures Constants(7) == Hash(0x748f82ee, 0x78a5636f, 0x84c87814, 0x8cc70208, 0x90befffa, 0xa4506ceb, 0xbef9a3f7, 0xc67178f2)
  {
    hide K;
    C.Words56();
  }

  lemma NextState(j: nat)
    requires j < 8
    ensures EightTurns(STATES[j], Constants(j), WORDS[j]) == STATES[j + 1]
  {
    hide EightTurns, Constants;
    match j
    case 0 => Constants0(); Turns0();
    case 1 => Constants8(); Turns8();
    case 2 => Constants16(); Turns16();
    case 3 => Constants24(); Turns24();
    case 4 => Constants32(); Turns32();
    case 5 => Constants40(); Turns40();
    case 6 => Constants48(); Turns48();
    case _ => Constants56(); Turns56();
  }

  lemma {:induction false} AbcTurns(b: Block, j: nat)
    requires IsAbc(b) && j <= 8
    ensures Rounds(INITIAL, b, 8 * j) == STATES[j]
  {
    hide Words, Constants, EightTurns, Rounds, IsAbc;
    if j == 0 {
      NoTurns(b);
    } else {
      AbcTurns(b, j - 1);
      AbcWords(b, j - 1);
      NextTurns(INITIAL, b, j - 1);
      NextState(j - 1);
    }
  }

  /** The digest of "abc". */
  lemma DigestOfAbc()
    ensures Sha256.Sha256(ABC) == Hash(0xba7816bf, 0x8f01cfea, 0x414140de, 0x5dae2223, 0xb00361a3, 0x96177a9c, 0xb410ff61, 0xf20015ad)
  {
    hide Pad, Rounds, IsAbc;
    var b := PaddedAbc();
    AbcTurns(b, 8);
    assert Pad(ABC)[64 * 0..64 * 1] == b;
    assert HashBlocks(Pad(ABC), 0) == INITIAL;
    assert Compress(INITIAL, b) == Hash(0xba7816bf, 0x8f01cfea, 0x414140de, 0x5dae2223, 0xb00361a3, 0x96177a9c, 0xb410ff61, 0xf20015ad);
  }
}
