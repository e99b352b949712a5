/**
 * The constants of SHA-256 from their definition in FIPS 180-4: the fractional parts of the
 * roots of the first primes.
 */
module Sha256Constants {
  import opened Arith
  import opened Sha256
  import opened Sha256Numbers

  // ---- primes ----

  predicate Divides(d: nat, n: nat) { d > 0 && n % d == 0 }

  ghost predicate Prime(n: nat) { n > 1 && forall d :: 1 < d < n ==> !Divides(d, n) }

  /** Trial division, enough below 19 * 19. */
  predicate Passes(n: nat) {
    && n > 1 && (n == 2 || n % 2 != 0) && (n == 3 || n % 3 != 0) && (n == 5 || n % 5 != 0) && (n == 7 || n % 7 != 0)
    && (n == 11 || n % 11 != 0) && (n == 13 || n % 13 != 0) && (n == 17 || n % 17 != 0)
  }

  lemma Multiple(n: nat, d: nat, p: nat, k: nat)
    requires p > 0 && k > 0 && d == p * k && Divides(d, n)
    ensures Divides(p, n)
  {
    Split(n, d);
    var q := n / d;
    assert n == k * q * p;
    SplitUnique(n, p, k * q, 0);
  }

  lemma SmallDivisor(n: nat, d: nat)
    requires 1 < d < 19 && d < n && Divides(d, n)
    ensures !Passes(n)
  {
    if d % 2 == 0 {
      Multiple(n, d, 2, d / 2);
    } else if d % 3 == 0 {
      Multiple(n, d, 3, d / 3);
    }
  }

  lemma Cofactor(n: nat, d: nat)
    requires 18 < d < n < 361 && Divides(d, n)
    ensures 1 < n / d < 19 && Divides(n / d, n)
  {
    var q := n / d;
    Split(n, d);
    assert n == q * d;
    if q >= 19 { Apart(18, q, d); }
    assert q > 0;
    SplitUnique(n, q, d, 0);
  }

  lemma PassesIsPrime(n: nat)
    requires n < 361
    ensures Passes(n) <==> Prime(n)
  {
    if Passes(n) {
      forall d | 1 < d < n
        ensures !Divides(d, n)
      {
        if Divides(d, n) {
          if d < 19 { SmallDivisor(n, d); } else { Cofactor(n, d); SmallDivisor(n, n / d); }
        }
      }
    } else {
      var d := if n % 2 == 0 then 2 else if n % 3 == 0 then 3 else if n % 5 == 0 then 5 else if n % 7 == 0 then 7
               else if n % 11 == 0 then 11 else if n % 13 == 0 then 13 else 17;
      assert n > 1 ==> d < n && Divides(d, n);
    }
  }

  ghost predicate NextPrime(p: nat, q: nat) {
    p < q && Prime(q) && forall n :: p < n < q ==> !Prime(n)
  }

  predicate NextPassing(p: nat, q: nat) {
    p < q && Passes(q) && forall n :: p < n < q ==> !Passes(n)
  }

  lemma NextPassingIsPrime(p: nat, q: nat)
    requires NextPassing(p, q) && q < 361
    ensures NextPrime(p, q)
  {
    hide Passes, Prime;
    forall n | p < n <= q
      ensures Passes(n) <==> Prime(n)
    {
      PassesIsPrime(n);
    }
  }

  /** The first 64 primes: see FromPrimes. */
  const PRIMES: seq<nat> :=
    [2, 3, 5, 7, 11, 13, 17, 19, 23, 29, 31, 37, 41, 43, 47, 53] +
    [59, 61, 67, 71, 73, 79, 83, 89, 97, 101, 103, 107, 109, 113, 127, 131] +
    [137, 139, 149, 151, 157, 163, 167, 173, 179, 181, 191, 193, 197, 199, 211, 223] +
    [227, 229, 233, 239, 241, 251, 257, 263, 269, 271, 277, 281, 283, 293, 307, 311]

  // ---- roots ----

  /** `w` is the first 32 bits of the fractional part of the cube root of `p`, and `c` its integer part. */
  predicate CubeRoot(p: nat, c: nat, w: nat) {
    var x := c * 0x1_0000_0000 + w;
    w < 0x1_0000_0000 && x * x * x <= p * 0x1_0000_0000_0000_0000_0000_0000 < (x + 1) * (x + 1) * (x + 1)
  }

  predicate SquareRoot(p: nat, c: nat, w: nat) {
    var x := c * 0x1_0000_0000 + w;
    w < 0x1_0000_0000 && x * x <= p * 0x1_0000_0000_0000_0000 < (x + 1) * (x + 1)
  }

  /** Word `i` of K comes from the prime after the one of word `i - 1`. */
  ghost predicate FromPrime(i: nat)
    requires i < 64
  {
    && NextPrime(if i == 0 then 1 else PRIMES[i - 1], PRIMES[i])
    && exists c: nat :: CubeRoot(PRIMES[i], c, Number(K[i]))
  }

  lemma Primes0()
    ensures PRIMES[0] == 2 && PRIMES[1] == 3 && PRIMES[2] == 5 && PRIMES[3] == 7
    ensures PRIMES[4] == 11 && PRIMES[5] == 13 && PRIMES[6] == 17 && PRIMES[7] == 19
  {
  }

  lemma Between0(n: nat)
    requires 2 <= n <= 7
    ensures Passes(n) <==> n == 2 || n == 3 || n == 5 || n == 7
  {
  }

  lemma Between4(n: nat)
    requires 8 <= n <= 19
    ensures Passes(n) <==> n == 11 || n == 13 || n == 17 || n == 19
  {
  }

  lemma Gaps0()
    ensures NextPassing(1, 2) && NextPassing(2, 3) && NextPassing(3, 5) && NextPassing(5, 7)
    ensures NextPassing(7, 11) && NextPassing(11, 13) && NextPassing(13, 17) && NextPassing(17, 19)
  {
    hide Passes;
    forall n | 1 < n <= 19
      ensures Passes(n) <==> n in [2, 3, 5, 7, 11, 13, 17, 19]
    {
      if n <= 7 { Between0(n); } else { Between4(n); }
    }
  }

  lemma Roots0()
    ensures CubeRoot(2, 1, 0x428a2f98)
    ensures CubeRoot(3, 1, 0x71374491)
    ensures CubeRoot(5, 1, 0xb5c0fbcf)
    ensures CubeRoot(7, 1, 0xe9b5dba5)
    ensures CubeRoot(11, 2, 0x3956c25b)
    ensures CubeRoot(13, 2, 0x59f111f1)
    ensures CubeRoot(17, 2, 0x923f82a4)
    ensures CubeRoot(19, 2, 0xab1c5ed5)
  {
  }

  lemma Words0()
    ensures K[0] == 0x428a2f98 && K[1] == 0x71374491 && K[2] == 0xb5c0fbcf && K[3] == 0xe9b5dba5
    ensures K[4] == 0x3956c25b && K[5] == 0x59f111f1 && K[6] == 0x923f82a4 && K[7] == 0xab1c5ed5
  {
  }

  lemma Numbers0()
    ensures Number(0x428a2f98) == 0x428a2f98
    ensures Number(0x71374491) == 0x71374491
    ensures Number(0xb5c0fbcf) == 0xb5c0fbcf
    ensures Number(0xe9b5dba5) == 0xe9b5dba5
    ensures Number(0x3956c25b) == 0x3956c25b
    ensures Number(0x59f111f1) == 0x59f111f1
    ensures Number(0x923f82a4) == 0x923f82a4
    ensures Number(0xab1c5ed5) == 0xab1c5ed5
  {
  }

  lemma FromPrimes0()
    ensures forall i :: 0 <= i < 8 ==> FromPrime(i)
  {
    hide CubeRoot, Number, NextPassing, NextPrime;
    Gaps0();
    Roots0();
    Words0();
    Numbers0();
    Primes0();
    NextPassingIsPrime(1, 2);
    assert FromPrime(0);
    NextPassingIsPrime(2, 3);
    assert FromPrime(1);
    NextPassingIsPrime(3, 5);
    assert FromPrime(2);
    NextPassingIsPrime(5, 7);
    assert FromPrime(3);
    NextPassingIsPrime(7, 11);
    assert FromPrime(4);
    NextPassingIsPrime(11, 13);
    assert FromPrime(5);
    NextPassingIsPrime(13, 17);
    assert FromPrime(6);
    NextPassingIsPrime(17, 19);
    assert FromPrime(7);
  }

  lemma Primes8()
    ensures PRIMES[8] == 23 && PRIMES[9] == 29 && PRIMES[10] == 31 && PRIMES[11] == 37
    ensures PRIMES[12] == 41 && PRIMES[13] == 43 && PRIMES[14] == 47 && PRIMES[15] == 53
  {
  }

  lemma Between8(n: nat)
    requires 20 <= n <= 37
    ensures Passes(n) <==> n == 23 || n == 29 || n == 31 || n == 37
  {
    assert n % 2 == 0 || n == 21 || n == 23 || n == 25 || n == 27 || n == 29 || n == 31 || n == 33 || n == 35 ||
           n == 37;
  }

  lemma Between12(n: nat)
    requires 38 <= n <= 53
    ensures Passes(n) <==> n == 41 || n == 43 || n == 47 || n == 53
  {
    assert n % 2 == 0 || n == 39 || n == 41 || n == 43 || n == 45 || n == 47 || n == 49 || n == 51 || n == 53;
  }

  lemma Gaps8()
    ensures NextPassing(19, 23) && NextPassing(23, 29) && NextPassing(29, 31) && NextPassing(31, 37)
    ensures NextPassing(37, 41) && NextPassing(41, 43) && NextPassing(43, 47) && NextPassing(47, 53)
  {
    hide Passes;
    forall n | 19 < n <= 53
      ensures Passes(n) <==> n in [23, 29, 31, 37, 41, 43, 47, 53]
    {
      if n <= 37 { Between8(n); } else { Between12(n); }
    }
  }

  lemma Roots8()
    ensures CubeRoot(23, 2, 0xd807aa98)
    ensures CubeRoot(29, 3, 0x12835b01)
    ensures CubeRoot(31, 3, 0x243185be)
    ensures CubeRoot(37, 3, 0x550c7dc3)
    ensures CubeRoot(41, 3, 0x72be5d74)
    ensures CubeRoot(43, 3, 0x80deb1fe)
    ensures CubeRoot(47, 3, 0x9bdc06a7)
    ensures CubeRoot(53, 3, 0xc19bf174)
  {
  }

  lemma Words8()
    ensures K[8] == 0xd807aa98 && K[9] == 0x12835b01 && K[10] == 0x243185be && K[11] == 0x550c7dc3
    ensures K[12] == 0x72be5d74 && K[13] == 0x80deb1fe && K[14] == 0x9bdc06a7 && K[15] == 0xc19bf174
  {
  }

  lemma Numbers8()
    ensures Number(0xd807aa98) == 0xd807aa98
    ensures Number(0x12835b01) == 0x12835b01
    ensures Number(0x243185be) == 0x243185be
    ensures Number(0x550c7dc3) == 0x550c7dc3
    ensures Number(0x72be5d74) == 0x72be5d74
    ensures Number(0x80deb1fe) == 0x80deb1fe
    ensures Number(0x9bdc06a7) == 0x9bdc06a7
    ensures Number(0xc19bf174) == 0xc19bf174
  {
  }

  lemma FromPrimes8()
    ensures forall i :: 8 <= i < 16 ==> FromPrime(i)
  {
    hide CubeRoot, Number, NextPassing, NextPrime;
    Gaps8();
    Roots8();
    Words8();
    Numbers8();
    Primes8();
    Primes0();
    NextPassingIsPrime(19, 23);
    assert FromPrime(8);
    NextPassingIsPrime(23, 29);
    assert FromPrime(9);
    NextPassingIsPrime(29, 31);
    assert FromPrime(10);
    NextPassingIsPrime(31, 37);
    assert FromPrime(11);
    NextPassingIsPrime(37, 41);
    assert FromPrime(12);
    NextPassingIsPrime(41, 43);
    assert FromPrime(13);
    NextPassingIsPrime(43, 47);
    assert FromPrime(14);
    NextPassingIsPrime(47, 53);
    assert FromPrime(15);
  }

  lemma Primes16()
    ensures PRIMES[16] == 59 && PRIMES[17] == 61 && PRIMES[18] == 67 && PRIMES[19] == 71
    ensures PRIMES[20] == 73 && PRIMES[21] == 79 && PRIMES[22] == 83 && PRIMES[23] == 89
  {
  }

  lemma Between16(n: nat)
    requires 54 <= n <= 71
    ensures Passes(n) <==> n == 59 || n == 61 || n == 67 || n == 71
  {
    assert n % 2 == 0 || n == 55 || n == 57 || n == 59 || n == 61 || n == 63 || n == 65 || n == 67 || n == 69 ||
           n == 71;
  }

  lemma Between20(n: nat)
    requires 72 <= n <= 89
    ensures Passes(n) <==> n == 73 || n == 79 || n == 83 || n == 89
  {
    assert n % 2 == 0 || n == 73 || n == 75 || n == 77 || n == 79 || n == 81 || n == 83 || n == 85 || n == 87 ||
           n == 89;
  }

  lemma Gaps16()
    ensures NextPassing(53, 59) && NextPassing(59, 61) && NextPassing(61, 67) && NextPassing(67, 71)
    ensures NextPassing(71, 73) && NextPassing(73, 79) && NextPassing(79, 83) && NextPassing(83, 89)
  {
    hide Passes;
    forall n | 53 < n <= 89
      ensures Passes(n) <==> n in [59, 61, 67, 71, 73, 79, 83, 89]
    {
      if n <= 71 { Between16(n); } else { Between20(n); }
    }
  }

  lemma Roots16()
    ensures CubeRoot(59, 3, 0xe49b69c1)
    ensures CubeRoot(61, 3, 0xefbe4786)
    ensures CubeRoot(67, 4, 0x0fc19dc6)
    ensures CubeRoot(71, 4, 0x240ca1cc)
    ensures CubeRoot(73, 4, 0x2de92c6f)
    ensures CubeRoot(79, 4, 0x4a7484aa)
    ensures CubeRoot(83, 4, 0x5cb0a9dc)
    ensures CubeRoot(89, 4, 0x76f988da)
  {
  }

  lemma Words16()
    ensures K[16] == 0xe49b69c1 && K[17] == 0xefbe4786 && K[18] == 0x0fc19dc6 && K[19] == 0x240ca1cc
    ensures K[20] == 0x2de92c6f && K[21] == 0x4a7484aa && K[22] == 0x5cb0a9dc && K[23] == 0x76f988da
  {
  }

  lemma Numbers16()
    ensures Number(0xe49b69c1) == 0xe49b69c1
    ensures Number(0xefbe4786) == 0xefbe4786
    ensures Number(0x0fc19dc6) == 0x0fc19dc6
    ensures Number(0x240ca1cc) == 0x240ca1cc
    ensures Number(0x2de92c6f) == 0x2de92c6f
    ensures Number(0x4a7484aa) == 0x4a7484aa
    ensures Number(0x5cb0a9dc) == 0x5cb0a9dc
    ensures Number(0x76f988da) == 0x76f988da
  {
  }

  lemma FromPrimes16()
    ensures forall i :: 16 <= i < 24 ==> FromPrime(i)
  {
    hide CubeRoot, Number, NextPassing, NextPrime;
    Gaps16();
    Roots16();
    Words16();
    Numbers16();
    Primes16();
    Primes8();
    NextPassingIsPrime(53, 59);
    assert FromPrime(16);
    NextPassingIsPrime(59, 61);
    assert FromPrime(17);
    NextPassingIsPrime(61, 67);
    assert FromPrime(18);
    NextPassingIsPrime(67, 71);
    assert FromPrime(19);
    NextPassingIsPrime(71, 73);
    assert FromPrime(20);
    NextPassingIsPrime(73, 79);
    assert FromPrime(21);
    NextPassingIsPrime(79, 83);
    assert FromPrime(22);
    NextPassingIsPrime(83, 89);
    assert FromPrime(23);
  }

  lemma Primes24()
    ensures PRIMES[24] == 97 && PRIMES[25] == 101 && PRIMES[26] == 103 && PRIMES[27] == 107
    ensures PRIMES[28] == 109 && PRIMES[29] == 113 && PRIMES[30] == 127 && PRIMES[31] == 131
  {
  }

  lemma Between24(n: nat)
    requires 90 <= n <= 107
    ensures Passes(n) <==> n == 97 || n == 101 || n == 103 || n == 107
  {
    assert n % 2 == 0 || n == 91 || n == 93 || n == 95 || n == 97 || n == 99 || n == 101 || n == 103 || n == 105 ||
           n == 107;
  }

  lemma Between28(n: nat)
    requires 108 <= n <= 131
    ensures Passes(n) <==> n == 109 || n == 113 || n == 127 || n == 131
  {
    assert n % 2 == 0 || n == 109 || n == 111 || n == 113 || n == 115 || n == 117 || n == 119 || n == 121 || n == 123 ||
           n == 125 || n == 127 || n == 129 || n == 131;
  }

  lemma Gaps24()
    ensures NextPassing(89, 97) && NextPassing(97, 101) && NextPassing(101, 103) && NextPassing(103, 107)
    ensures NextPassing(107, 109) && NextPassing(109, 113) && NextPassing(113, 127) && NextPassing(127, 131)
  {
    hide Passes;
    forall n | 89 < n <= 131
      ensures Passes(n) <==> n in [97, 101, 103, 107, 109, 113, 127, 131]
    {
      if n <= 107 { Between24(n); } else { Between28(n); }
    }
  }

  lemma Roots24()
    ensures CubeRoot(97, 4, 0x983e5152)
    ensures CubeRoot(101, 4, 0xa831c66d)
    ensures CubeRoot(103, 4, 0xb00327c8)
    ensures CubeRoot(107, 4, 0xbf597fc7)
    ensures CubeRoot(109, 4, 0xc6e00bf3)
    ensures CubeRoot(113, 4, 0xd5a79147)
    ensures CubeRoot(127, 5, 0x06ca6351)
    ensures CubeRoot(131, 5, 0x14292967)
  {
  }

  lemma Words24()
    ensures K[24] == 0x983e5152 && K[25] == 0xa831c66d && K[26] == 0xb00327c8 && K[27] == 0xbf597fc7
    ensures K[28] == 0xc6e00bf3 && K[29] == 0xd5a79147 && K[30] == 0x06ca6351 && K[31] == 0x14292967
  {
  }

  lemma Numbers24()
    ensures Number(0x983e5152) == 0x983e5152
    ensures Number(0xa831c66d) == 0xa831c66d
    ensures Number(0xb00327c8) == 0xb00327c8
    ensures Number(0xbf597fc7) == 0xbf597fc7
    ensures Number(0xc6e00bf3) == 0xc6e00bf3
    ensures Number(0xd5a79147) == 0xd5a79147
    ensures Number(0x06ca6351) == 0x06ca6351
    ensures Number(0x14292967) == 0x14292967
  {
  }

  lemma FromPrimes24()
    ensures forall i :: 24 <= i < 32 ==> FromPrime(i)
  {
    hide CubeRoot, Number, NextPassing, NextPrime;
    Gaps24();
    Roots24();
    Words24();
    Numbers24();
    Primes24();
    Primes16();
    NextPassingIsPrime(89, 97);
    assert FromPrime(24);
    NextPassingIsPrime(97, 101);
    assert FromPrime(25);
    NextPassingIsPrime(101, 103);
    assert FromPrime(26);
    NextPassingIsPrime(103, 107);
    assert FromPrime(27);
    NextPassingIsPrime(107, 109);
    assert FromPrime(28);
    NextPassingIsPrime(109, 113);
    assert FromPrime(29);
    NextPassingIsPrime(113, 127);
    assert FromPrime(30);
    NextPassingIsPrime(127, 131);
    assert FromPrime(31);
  }

  lemma Primes32()
    ensures PRIMES[32] == 137 && PRIMES[33] == 139 && PRIMES[34] == 149 && PRIMES[35] == 151
    ensures PRIMES[36] == 157 && PRIMES[37] == 163 && PRIMES[38] == 167 && PRIMES[39] == 173
  {
  }

  lemma Between32(n: nat)
    requires 132 <= n <= 151
    ensures Passes(n) <==> n == 137 || n == 139 || n == 149 || n == 151
  {
    assert n % 2 == 0 || n == 133 || n == 135 || n == 137 || n == 139 || n == 141 || n == 143 || n == 145 || n == 147 ||
           n == 149 || n == 151;
  }

  lemma Between36(n: nat)
    requires 152 <= n <= 173
    ensures Passes(n) <==> n == 157 || n == 163 || n == 167 || n == 173
  {
    assert n % 2 == 0 || n == 153 || n == 155 || n == 157 || n == 159 || n == 161 || n == 163 || n == 165 || n == 167 ||
           n == 169 || n == 171 || n == 173;
  }

  lemma Gaps32()
    ensures NextPassing(131, 137) && NextPassing(137, 139) && NextPassing(139, 149) && NextPassing(149, 151)
    ensures NextPassing(151, 157) && NextPassing(157, 163) && NextPassing(163, 167) && NextPassing(167, 173)
  {
    hide Passes;
    forall n | 131 < n <= 173
      ensures Passes(n) <==> n in [137, 139, 149, 151, 157, 163, 167, 173]
    {
      if n <= 151 { Between32(n); } else { Between36(n); }
    }
  }

  lemma Roots32()
    ensures CubeRoot(137, 5, 0x27b70a85)
    ensures CubeRoot(139, 5, 0x2e1b2138)
    ensures CubeRoot(149, 5, 0x4d2c6dfc)
    ensures CubeRoot(151, 5, 0x53380d13)
    ensures CubeRoot(157, 5, 0x650a7354)
    ensures CubeRoot(163, 5, 0x766a0abb)
    ensures CubeRoot(167, 5, 0x81c2c92e)
    ensures CubeRoot(173, 5, 0x92722c85)
  {
  }

  lemma Words32()
    ensures K[32] == 0x27b70a85 && K[33] == 0x2e1b2138 && K[34] == 0x4d2c6dfc && K[35] == 0x53380d13
    ensures K[36] == 0x650a7354 && K[37] == 0x766a0abb && K[38] == 0x81c2c92e && K[39] == 0x92722c85
  {
  }

  lemma Numbers32()
    ensures Number(0x27b70a85) == 0x27b70a85
    ensures Number(0x2e1b2138) == 0x2e1b2138
    ensures Number(0x4d2c6dfc) == 0x4d2c6dfc
    ensures Number(0x53380d13) == 0x53380d13
    ensures Number(0x650a7354) == 0x650a7354
    ensures Number(0x766a0abb) == 0x766a0abb
    ensures Number(0x81c2c92e) == 0x81c2c92e
    ensures Number(0x92722c85) == 0x92722c85
  {
  }

  lemma FromPrimes32()
    ensures forall i :: 32 <= i < 40 ==> FromPrime(i)
  {
    hide CubeRoot, Number, NextPassing, NextPrime;
    Gaps32();
    Roots32();
    Words32();
    Numbers32();
    Primes32();
    Primes24();
    NextPassingIsPrime(131, 137);
    assert FromPrime(32);
    NextPassingIsPrime(137, 139);
    assert FromPrime(33);
    NextPassingIsPrime(139, 149);
    assert FromPrime(34);
    NextPassingIsPrime(149, 151);
    assert FromPrime(35);
    NextPassingIsPrime(151, 157);
    assert FromPrime(36);
    NextPassingIsPrime(157, 163);
    assert FromPrime(37);
    NextPassingIsPrime(163, 167);
    assert FromPrime(38);
    NextPassingIsPrime(167, 173);
    assert FromPrime(39);
  }

  lemma Primes40()
    ensures PRIMES[40] == 179 && PRIMES[41] == 181 && PRIMES[42] == 191 && PRIMES[43] == 193
    ensures PRIMES[44] == 197 && PRIMES[45] == 199 && PRIMES[46] == 211 && PRIMES[47] == 223
  {
  }

  lemma Between40(n: nat)
    requires 174 <= n <= 193
    ensures Passes(n) <==> n == 179 || n == 181 || n == 191 || n == 193
  {
    assert n % 2 == 0 || n == 175 || n == 177 || n == 179 || n == 181 || n == 183 || n == 185 || n == 187 || n == 189 ||
           n == 191 || n == 193;
  }

  lemma Between44(n: nat)
    requires 194 <= n <= 223
    ensures Passes(n) <==> n == 197 || n == 199 || n == 211 || n == 223
  {
    assert n % 2 == 0 || n == 195 || n == 197 || n == 199 || n == 201 || n == 203 || n == 205 || n == 207 || n == 209 ||
           n == 211 || n == 213 || n == 215 || n == 217 || n == 219 || n == 221 || n == 223;
  }

  lemma Gaps40()
    ensures NextPassing(173, 179) && NextPassing(179, 181) && NextPassing(181, 191) && NextPassing(191, 193)
    ensures NextPassing(193, 197) && NextPassing(197, 199) && NextPassing(199, 211) && NextPassing(211, 223)
  {
    hide Passes;
    forall n | 173 < n <= 223
      ensures Passes(n) <==> n in [179, 181, 191, 193, 197, 199, 211, 223]
    {
      if n <= 193 { Between40(n); } else { Between44(n); }
    }
  }

  lemma Roots40()
    ensures CubeRoot(179, 5, 0xa2bfe8a1)
    ensures CubeRoot(181, 5, 0xa81a664b)
    ensures CubeRoot(191, 5, 0xc24b8b70)
    ensures CubeRoot(193, 5, 0xc76c51a3)
    ensures CubeRoot(197, 5, 0xd192e819)
    ensures CubeRoot(199, 5, 0xd6990624)
    ensures CubeRoot(211, 5, 0xf40e3585)
    ensures CubeRoot(223, 6, 0x106aa070)
  {
  }

  lemma Words40()
    ensures K[40] == 0xa2bfe8a1 && K[41] == 0xa81a664b && K[42] == 0xc24b8b70 && K[43] == 0xc76c51a3
    ensures K[44] == 0xd192e819 && K[45] == 0xd6990624 && K[46] == 0xf40e3585 && K[47] == 0x106aa070
  {
  }

  lemma Numbers40()
    ensures Number(0xa2bfe8a1) == 0xa2bfe8a1
    ensures Number(0xa81a664b) == 0xa81a664b
    ensures Number(0xc24b8b70) == 0xc24b8b70
    ensures Number(0xc76c51a3) == 0xc76c51a3
    ensures Number(0xd192e819) == 0xd192e819
    ensures Number(0xd6990624) == 0xd6990624
    ensures Number(0xf40e3585) == 0xf40e3585
    ensures Number(0x106aa070) == 0x106aa070
  {
  }

  lemma FromPrimes40()
    ensures forall i :: 40 <= i < 48 ==> FromPrime(i)
  {
    hide CubeRoot, Number, NextPassing, NextPrime;
    Gaps40();
    Roots40();
    Words40();
    Numbers40();
    Primes40();
    Primes32();
    NextPassingIsPrime(173, 179);
    assert FromPrime(40);
    NextPassingIsPrime(179, 181);
    assert FromPrime(41);
    NextPassingIsPrime(181, 191);
    assert FromPrime(42);
    NextPassingIsPrime(191, 193);
    assert FromPrime(43);
    NextPassingIsPrime(193, 197);
    assert FromPrime(44);
    NextPassingIsPrime(197, 199);
    assert FromPrime(45);
    NextPassingIsPrime(199, 211);
    assert FromPrime(46);
    NextPassingIsPrime(211, 223);
    assert FromPrime(47);
  }

  lemma Primes48()
    ensures PRIMES[48] == 227 && PRIMES[49] == 229 && PRIMES[50] == 233 && PRIMES[51] == 239
    ensures PRIMES[52] == 241 && PRIMES[53] == 251 && PRIMES[54] == 257 && PRIMES[55] == 263
  {
  }

  lemma Between48(n: nat)
    requires 224 <= n <= 239
    ensures Passes(n) <==> n == 227 || n == 229 || n == 233 || n == 239
  {
    assert n % 2 == 0 || n == 225 || n == 227 || n == 229 || n == 231 || n == 233 || n == 235 || n == 237 || n == 239;
  }

  lemma Between52(n: nat)
    requires 240 <= n <= 263
    ensures Passes(n) <==> n == 241 || n == 251 || n == 257 || n == 263
  {
    assert n % 2 == 0 || n == 241 || n == 243 || n == 245 || n == 247 || n == 249 || n == 251 || n == 253 || n == 255 ||
           n == 257 || n == 259 || n == 261 || n == 263;
  }

  lemma Gaps48()
    ensures NextPassing(223, 227) && NextPassing(227, 229) && NextPassing(229, 233) && NextPassing(233, 239)
    ensures NextPassing(239, 241) && NextPassing(241, 251) && NextPassing(251, 257) && NextPassing(257, 263)
  {
    hide Passes;
    forall n | 223 < n <= 263
      ensures Passes(n) <==> n in [227, 229, 233, 239, 241, 251, 257, 263]
    {
      if n <= 239 { Between48(n); } else { Between52(n); }
    }
  }

  lemma Roots48()
    ensures CubeRoot(227, 6, 0x19a4c116)
    ensures CubeRoot(229, 6, 0x1e376c08)
    ensures CubeRoot(233, 6, 0x2748774c)
    ensures CubeRoot(239, 6, 0x34b0bcb5)
    ensures CubeRoot(241, 6, 0x391c0cb3)
    ensures CubeRoot(251, 6, 0x4ed8aa4a)
    ensures CubeRoot(257, 6, 0x5b9cca4f)
    ensures CubeRoot(263, 6, 0x682e6ff3)
  {
  }

  lemma Words48()
    ensures K[48] == 0x19a4c116 && K[49] == 0x1e376c08 && K[50] == 0x2748774c && K[51] == 0x34b0bcb5
    ensures K[52] == 0x391c0cb3 && K[53] == 0x4ed8aa4a && K[54] == 0x5b9cca4f && K[55] == 0x682e6ff3
  {
  }

  lemma Numbers48()
    ensures Number(0x19a4c116) == 0x19a4c116
    ensures Number(0x1e376c08) == 0x1e376c08
    ensures Number(0x2748774c) == 0x2748774c
    ensures Number(0x34b0bcb5) == 0x34b0bcb5
    ensures Number(0x391c0cb3) == 0x391c0cb3
    ensures Number(0x4ed8aa4a) == 0x4ed8aa4a
    ensures Number(0x5b9cca4f) == 0x5b9cca4f
    ensures Number(0x682e6ff3) == 0x682e6ff3
  {
  }

  lemma FromPrimes48()
    ensures forall i :: 48 <= i < 56 ==> FromPrime(i)
  {
    hide CubeRoot, Number, NextPassing, NextPrime;
    Gaps48();
    Roots48();
    Words48();
    Numbers48();
    Primes48();
    Primes40();
    NextPassingIsPrime(223, 227);
    assert FromPrime(48);
    NextPassingIsPrime(227, 229);
    assert FromPrime(49);
    NextPassingIsPrime(229, 233);
    assert FromPrime(50);
    NextPassingIsPrime(233, 239);
    assert FromPrime(51);
    NextPassingIsPrime(239, 241);
    assert FromPrime(52);
    NextPassingIsPrime(241, 251);
    assert FromPrime(53);
    NextPassingIsPrime(251, 257);
    assert FromPrime(54);
    NextPassingIsPrime(257, 263);
    assert FromPrime(55);
  }

  lemma Primes56()
    ensures PRIMES[56] == 269 && PRIMES[57] == 271 && PRIMES[58] == 277 && PRIMES[59] == 281
    ensures PRIMES[60] == 283 && PRIMES[61] == 293 && PRIMES[62] == 307 && PRIMES[63] == 311
  {
  }

  lemma Between56(n: nat)
    requires 264 <= n <= 281
    ensures Passes(n) <==> n == 269 || n == 271 || n == 277 || n == 281
  {
    assert n % 2 == 0 || n == 265 || n == 267 || n == 269 || n == 271 || n == 273 || n == 275 || n == 277 || n == 279 ||
           n == 281;
  }

  lemma Between60(n: nat)
    requires 282 <= n <= 311
    ensures Passes(n) <==> n == 283 || n == 293 || n == 307 || n == 311
  {
    assert n % 2 == 0 || n == 283 || n == 285 || n == 287 || n == 289 || n == 291 || n == 293 || n == 295 || n == 297 ||
           n == 299 || n == 301 || n == 303 || n == 305 || n == 307 || n == 309 || n == 311;
  }

  lemma Gaps56()
    ensures NextPassing(263, 269) && NextPassing(269, 271) && NextPassing(271, 277) && NextPassing(277, 281)
    ensures NextPassing(281, 283) && NextPassing(283, 293) && NextPassing(293, 307) && NextPassing(307, 311)
  {
    hide Passes;
    forall n | 263 < n <= 311
      ensures Passes(n) <==> n in [269, 271, 277, 281, 283, 293, 307, 311]
    {
      if n <= 281 { Between56(n); } else { Between60(n); }
    }
  }

  lemma Roots56()
    ensures CubeRoot(269, 6, 0x748f82ee)
    ensures CubeRoot(271, 6, 0x78a5636f)
    ensures CubeRoot(277, 6, 0x84c87814)
    ensures CubeRoot(281, 6, 0x8cc70208)
    ensures CubeRoot(283, 6, 0x90befffa)
    ensures CubeRoot(293, 6, 0xa4506ceb)
    ensures CubeRoot(307, 6, 0xbef9a3f7)
    ensures CubeRoot(311, 6, 0xc67178f2)
  {
  }

  lemma Words56()
    ensures K[56] == 0x748f82ee && K[57] == 0x78a5636f && K[58] == 0x84c87814 && K[59] == 0x8cc70208
    ensures K[60] == 0x90befffa && K[61] == 0xa4506ceb && K[62] == 0xbef9a3f7 && K[63] == 0xc67178f2
  {
  }

  lemma Numbers56()
    ensures Number(0x748f82ee) == 0x748f82ee
    ensures Number(0x78a5636f) == 0x78a5636f
    ensures Number(0x84c87814) == 0x84c87814
    ensures Number(0x8cc70208) == 0x8cc70208
    ensures Number(0x90befffa) == 0x90befffa
    ensures Number(0xa4506ceb) == 0xa4506ceb
    ensures Number(0xbef9a3f7) == 0xbef9a3f7
    ensures Number(0xc67178f2) == 0xc67178f2
  {
  }

  lemma FromPrimes56()
    ensures forall i :: 56 <= i < 64 ==> FromPrime(i)
  {
    hide CubeRoot, Number, NextPassing, NextPrime;
    Gaps56();
    Roots56();
    Words56();
    Numbers56();
    Primes56();
    Primes48();
    NextPassingIsPrime(263, 269);
    assert FromPrime(56);
    NextPassingIsPrime(269, 271);
    assert FromPrime(57);
    NextPassingIsPrime(271, 277);
    assert FromPrime(58);
    NextPassingIsPrime(277, 281);
    assert FromPrime(59);
    NextPassingIsPrime(281, 283);
    assert FromPrime(60);
    NextPassingIsPrime(283, 293);
    assert FromPrime(61);
    NextPassingIsPrime(293, 307);
    assert FromPrime(62);
    NextPassingIsPrime(307, 311);
    assert FromPrime(63);
  }

  /** The words of K are the first 32 bits of the fractional parts of the cube roots of the
      first 64 primes, in order (section 4.2.2). */
  lemma FromPrimes(i: nat)
    requires i < 64
    ensures |K| == |PRIMES| == 64 && FromPrime(i)
  {
    hide FromPrime;
    if i < 8 {
      FromPrimes0();
    } else if i < 16 {
      FromPrimes8();
    } else if i < 24 {
      FromPrimes16();
    } else if i < 32 {
      FromPrimes24();
    } else if i < 40 {
      FromPrimes32();
    } else if i < 48 {
      FromPrimes40();
    } else if i < 56 {
      FromPrimes48();
    } else {
      FromPrimes56();
    }
  }

  /** And the initial hash value comes from the square roots of the first eight (section 5.3.3). */
  lemma InitialFromPrimes()
    ensures PRIMES[..8] == [2, 3, 5, 7, 11, 13, 17, 19]
    ensures SquareRoot(2, 1, Number(INITIAL.a)) && SquareRoot(3, 1, Number(INITIAL.b))
    ensures SquareRoot(5, 2, Number(INITIAL.c)) && SquareRoot(7, 2, Number(INITIAL.d))
    ensures SquareRoot(11, 3, Number(INITIAL.e)) && SquareRoot(13, 3, Number(INITIAL.f))
    ensures SquareRoot(17, 4, Number(INITIAL.g)) && SquareRoot(19, 4, Number(INITIAL.h))
  {
    Primes0();
  }
}
