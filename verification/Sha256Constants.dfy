// Where SHA-256's constants come from, and what its bit functions do, bit by bit.
module Sha256Constants {
  import opened Prelude
  import opened Sha256Spec

  // ---- Primes ----

  ghost predicate IsPrime(n: nat) { n >= 2 && forall d | 2 <= d < n :: n % d != 0 }

  // The primes up to n, in order.
  ghost function Primes(n: nat): seq<nat> {
    if n < 2 then [] else Primes(n - 1) + if IsPrime(n) then [n] else []
  }

  const PRIMES_0: seq<nat> := [2, 3, 5, 7, 11, 13, 17, 19]
  const PRIMES_1: seq<nat> := [23, 29, 31, 37, 41, 43, 47, 53]
  const PRIMES_2: seq<nat> := [59, 61, 67, 71, 73, 79, 83, 89]
  const PRIMES_3: seq<nat> := [97, 101, 103, 107, 109, 113, 127, 131]
  const PRIMES_4: seq<nat> := [137, 139, 149, 151, 157, 163, 167, 173]
  const PRIMES_5: seq<nat> := [179, 181, 191, 193, 197, 199, 211, 223]
  const PRIMES_6: seq<nat> := [227, 229, 233, 239, 241, 251, 257, 263]
  const PRIMES_7: seq<nat> := [269, 271, 277, 281, 283, 293, 307, 311]
  const PRIMES: seq<nat> := PRIMES_0 + PRIMES_1 + PRIMES_2 + PRIMES_3 + PRIMES_4 + PRIMES_5 + PRIMES_6 + PRIMES_7

  // Below 19 * 19 it is enough to try the primes below 19.
  predicate Tried(n: nat) {
    && (n % 2 != 0 || n == 2) && (n % 3 != 0 || n == 3) && (n % 5 != 0 || n == 5) && (n % 7 != 0 || n == 7)
    && (n % 11 != 0 || n == 11) && (n % 13 != 0 || n == 13) && (n % 17 != 0 || n == 17)
  }

  lemma SmallDivisor(n: nat, d: nat)
    requires 2 <= d <= 18 && d < n && n % d == 0
    ensures !Tried(n)
  {
    hide Tried;
    if d in {2, 3, 5, 7, 11, 13, 17} {
      FailsAt(n, d);
    } else {
      var p := if d == 9 || d == 15 then 3 else 2;
      Coarser(n, d, p);
      FailsAt(n, p);
    }
  }

  lemma Coarser(n: nat, d: nat, p: nat)
    requires d > 0 && p > 0 && n % d == 0 && d % p == 0
    ensures n % p == 0
  {
    var q, k := n / d, d / p;
    assert n == q * d && d == k * p;
    assert q * (k * p) == q * k * p;
    MultipleOf(p, q * k, n);
  }

  lemma FailsAt(n: nat, p: nat)
    requires p == 2 || p == 3 || p == 5 || p == 7 || p == 11 || p == 13 || p == 17
    requires p < n && n % p == 0
    ensures !Tried(n)
  {
  }

  lemma OtherDivisor(n: nat, d: nat) returns (e: nat)
    requires 18 < d < n < 361 && n % d == 0
    ensures 2 <= e <= 18 && n % e == 0
  {
    e := n / d;
    assert n == e * d;
    if e >= 19 { BothLarge(e, d); }
    MultipleOf(e, d, n);
  }

  lemma BothLarge(a: nat, b: nat)
    requires a >= 19 && b >= 19
    ensures a * b >= 361
  {
    MulLe(19, a, b);
    MulLe(19, b, 19);
  }

  lemma MultipleOf(m: nat, k: nat, n: nat)
    requires m > 0 && n == k * m
    ensures n % m == 0
  {
    var q := n / m;
    Quotient(n, m);
    if q < k { MulGap(q, k, m); }
    if k < q { MulGap(k, q, m); }
  }

  lemma TrialDivides(n: nat)
    requires 2 <= n < 361
    ensures IsPrime(n) <==> Tried(n)
  {
    hide Tried;
    FailingDivides(n);
    if !IsPrime(n) {
      var d :| 2 <= d < n && n % d == 0;
      if d > 18 { d := OtherDivisor(n, d); }
      SmallDivisor(n, d);
    }
  }

  lemma FailingDivides(n: nat)
    ensures n >= 2 && IsPrime(n) ==> Tried(n)
  {
  }

  // The same list, found by trying.
  function Found(n: nat): seq<nat> {
    if n < 2 then [] else if Tried(n) then Found(n - 1) + [n] else Found(n - 1)
  }

  lemma {:induction false} FoundIsPrimes(n: nat)
    requires n < 361
    ensures Found(n) == Primes(n)
  {
    hide IsPrime, Tried;
    if n >= 2 {
      FoundIsPrimes(n - 1);
      TrialDivides(n);
    }
  }

  // No number between p and q passes; q is at most 14 further.
  predicate NoneBetween(p: nat, q: nat) {
    && q <= p + 14
    && (p + 1 < q ==> !Tried(p + 1)) && (p + 2 < q ==> !Tried(p + 2)) && (p + 3 < q ==> !Tried(p + 3))
    && (p + 4 < q ==> !Tried(p + 4)) && (p + 5 < q ==> !Tried(p + 5)) && (p + 6 < q ==> !Tried(p + 6))
    && (p + 7 < q ==> !Tried(p + 7)) && (p + 8 < q ==> !Tried(p + 8)) && (p + 9 < q ==> !Tried(p + 9))
    && (p + 10 < q ==> !Tried(p + 10)) && (p + 11 < q ==> !Tried(p + 11)) && (p + 12 < q ==> !Tried(p + 12))
    && (p + 13 < q ==> !Tried(p + 13))
  }

  lemma {:induction false} NoneFound(p: nat, n: nat)
    requires 1 <= p <= n && forall k | p < k <= n :: !Tried(k)
    ensures Found(n) == Found(p)
  {
    hide Tried;
    if p < n { NoneFound(p, n - 1); }
  }

  lemma NextFound(p: nat, q: nat)
    requires 1 <= p < q && NoneBetween(p, q) && Tried(q)
    ensures Found(q) == Found(p) + [q]
  {
    hide Tried;
    forall k | p < k <= q - 1 ensures !Tried(k) { assert k == p + (k - p); }
    NoneFound(p, q - 1);
  }

  lemma Next2()
    ensures Found(7) == Found(1) + [2, 3, 5, 7]
  {
    hide Found;
    NextFound(1, 2);
    NextFound(2, 3);
    NextFound(3, 5);
    NextFound(5, 7);
  }

  lemma Next11()
    ensures Found(19) == Found(7) + [11, 13, 17, 19]
  {
    hide Found;
    NextFound(7, 11);
    NextFound(11, 13);
    NextFound(13, 17);
    NextFound(17, 19);
  }

  lemma Next23()
    ensures Found(37) == Found(19) + [23, 29, 31, 37]
  {
    hide Found;
    NextFound(19, 23);
    NextFound(23, 29);
    NextFound(29, 31);
    NextFound(31, 37);
  }

  lemma Next41()
    ensures Found(53) == Found(37) + [41, 43, 47, 53]
  {
    hide Found;
    NextFound(37, 41);
    NextFound(41, 43);
    NextFound(43, 47);
    NextFound(47, 53);
  }

  lemma Next59()
    ensures Found(71) == Found(53) + [59, 61, 67, 71]
  {
    hide Found;
    NextFound(53, 59);
    NextFound(59, 61);
    NextFound(61, 67);
    NextFound(67, 71);
  }

  lemma Next73()
    ensures Found(89) == Found(71) + [73, 79, 83, 89]
  {
    hide Found;
    NextFound(71, 73);
    NextFound(73, 79);
    NextFound(79, 83);
    NextFound(83, 89);
  }

  lemma Next97()
    ensures Found(107) == Found(89) + [97, 101, 103, 107]
  {
    hide Found;
    NextFound(89, 97);
    NextFound(97, 101);
    NextFound(101, 103);
    NextFound(103, 107);
  }

  lemma Next109()
    ensures Found(131) == Found(107) + [109, 113, 127, 131]
  {
    hide Found;
    NextFound(107, 109);
    NextFound(109, 113);
    NextFound(113, 127);
    NextFound(127, 131);
  }

  lemma Next137()
    ensures Found(151) == Found(131) + [137, 139, 149, 151]
  {
    hide Found;
    NextFound(131, 137);
    NextFound(137, 139);
    NextFound(139, 149);
    NextFound(149, 151);
  }

  lemma Next157()
    ensures Found(173) == Found(151) + [157, 163, 167, 173]
  {
    hide Found;
    NextFound(151, 157);
    NextFound(157, 163);
    NextFound(163, 167);
    NextFound(167, 173);
  }

  lemma Next179()
    ensures Found(193) == Found(173) + [179, 181, 191, 193]
  {
    hide Found;
    NextFound(173, 179);
    NextFound(179, 181);
    NextFound(181, 191);
    NextFound(191, 193);
  }

  lemma Next197()
    ensures Found(223) == Found(193) + [197, 199, 211, 223]
  {
    hide Found;
    NextFound(193, 197);
    NextFound(197, 199);
    NextFound(199, 211);
    NextFound(211, 223);
  }

  lemma Next227()
    ensures Found(239) == Found(223) + [227, 229, 233, 239]
  {
    hide Found;
    NextFound(223, 227);
    NextFound(227, 229);
    NextFound(229, 233);
    NextFound(233, 239);
  }

  lemma Next241()
    ensures Found(263) == Found(239) + [241, 251, 257, 263]
  {
    hide Found;
    NextFound(239, 241);
    NextFound(241, 251);
    NextFound(251, 257);
    NextFound(257, 263);
  }

  lemma Next269()
    ensures Found(281) == Found(263) + [269, 271, 277, 281]
  {
    hide Found;
    NextFound(263, 269);
    NextFound(269, 271);
    NextFound(271, 277);
    NextFound(277, 281);
  }

  lemma Next283()
    ensures Found(311) == Found(281) + [283, 293, 307, 311]
  {
    hide Found;
    NextFound(281, 283);
    NextFound(283, 293);
    NextFound(293, 307);
    NextFound(307, 311);
  }

  lemma Table0()
    ensures Found(19) == Found(1) + PRIMES_0 && |PRIMES_0| == 8
  {
    hide Found;
    Next2();
    Next11();
  }

  lemma Table1()
    ensures Found(53) == Found(19) + PRIMES_1 && |PRIMES_1| == 8
  {
    hide Found;
    Next23();
    Next41();
  }

  lemma Table2()
    ensures Found(89) == Found(53) + PRIMES_2 && |PRIMES_2| == 8
  {
    hide Found;
    Next59();
    Next73();
  }

  lemma Table3()
    ensures Found(131) == Found(89) + PRIMES_3 && |PRIMES_3| == 8
  {
    hide Found;
    Next97();
    Next109();
  }

  lemma Table4()
    ensures Found(173) == Found(131) + PRIMES_4 && |PRIMES_4| == 8
  {
    hide Found;
    Next137();
    Next157();
  }

  lemma Table5()
    ensures Found(223) == Found(173) + PRIMES_5 && |PRIMES_5| == 8
  {
    hide Found;
    Next179();
    Next197();
  }

  lemma Table6()
    ensures Found(263) == Found(223) + PRIMES_6 && |PRIMES_6| == 8
  {
    hide Found;
    Next227();
    Next241();
  }

  lemma Table7()
    ensures Found(311) == Found(263) + PRIMES_7 && |PRIMES_7| == 8
  {
    hide Found;
    Next269();
    Next283();
  }

  // The table holds the first 64 primes.
  lemma PrimesAre()
    ensures Primes(311) == PRIMES && |PRIMES| == 64
  {
    hide Found, PRIMES;
    FoundIsPrimes(311);
    PrimesFound();
  }

  lemma PrimesFound()
    ensures Found(311) == PRIMES && |PRIMES| == 64
  {
    hide Found, PRIMES_0, PRIMES_1, PRIMES_2, PRIMES_3, PRIMES_4, PRIMES_5, PRIMES_6, PRIMES_7;
    NothingFound();
    Table0();
    Table1();
    Table2();
    Table3();
    Table4();
    Table5();
    Table6();
    Table7();
  }

  lemma NothingFound()
    ensures Found(1) == []
  {
  }

  // ---- Fractions of roots ----

  // The first 32 bits of the fraction of the cube root of p: c is the root times 2^32, cut off.
  ghost predicate CubeFraction(p: nat, k: Word) {
    exists c: nat :: CubeRoot(p, c) && k as nat == c % 0x1_0000_0000
  }

  predicate CubeRoot(p: nat, c: nat) {
    c * c * c <= p * 0x1_0000_0000_0000_0000_0000_0000 < (c + 1) * (c + 1) * (c + 1)
  }

  ghost predicate SquareFraction(p: nat, k: Word) {
    exists c: nat :: SquareRoot(p, c) && k as nat == c % 0x1_0000_0000
  }

  predicate SquareRoot(p: nat, c: nat) { c * c <= p * 0x1_0000_0000_0000_0000 < (c + 1) * (c + 1) }

  lemma CubeIs(p: nat, c: nat, k: Word)
    requires CubeRoot(p, c) && k as nat == c % 0x1_0000_0000
    ensures CubeFraction(p, k)
  {
    hide CubeRoot;
  }

  lemma SquareIs(p: nat, c: nat, k: Word)
    requires SquareRoot(p, c) && k as nat == c % 0x1_0000_0000
    ensures SquareFraction(p, k)
  {
    hide SquareRoot;
  }

  lemma PrimesAt0()
    ensures |PRIMES| == 64
    ensures PRIMES[0] == 2 && PRIMES[1] == 3 && PRIMES[2] == 5 && PRIMES[3] == 7
    ensures PRIMES[4] == 11 && PRIMES[5] == 13 && PRIMES[6] == 17 && PRIMES[7] == 19
    ensures PRIMES[8] == 23 && PRIMES[9] == 29 && PRIMES[10] == 31 && PRIMES[11] == 37
    ensures PRIMES[12] == 41 && PRIMES[13] == 43 && PRIMES[14] == 47 && PRIMES[15] == 53
  {
  }

  lemma PrimesAt16()
    ensures |PRIMES| == 64
    ensures PRIMES[16] == 59 && PRIMES[17] == 61 && PRIMES[18] == 67 && PRIMES[19] == 71
    ensures PRIMES[20] == 73 && PRIMES[21] == 79 && PRIMES[22] == 83 && PRIMES[23] == 89
    ensures PRIMES[24] == 97 && PRIMES[25] == 101 && PRIMES[26] == 103 && PRIMES[27] == 107
    ensures PRIMES[28] == 109 && PRIMES[29] == 113 && PRIMES[30] == 127 && PRIMES[31] == 131
  {
  }

  lemma PrimesAt32()
    ensures |PRIMES| == 64
    ensures PRIMES[32] == 137 && PRIMES[33] == 139 && PRIMES[34] == 149 && PRIMES[35] == 151
    ensures PRIMES[36] == 157 && PRIMES[37] == 163 && PRIMES[38] == 167 && PRIMES[39] == 173
    ensures PRIMES[40] == 179 && PRIMES[41] == 181 && PRIMES[42] == 191 && PRIMES[43] == 193
    ensures PRIMES[44] == 197 && PRIMES[45] == 199 && PRIMES[46] == 211 && PRIMES[47] == 223
  {
  }

  lemma PrimesAt48()
    ensures |PRIMES| == 64
    ensures PRIMES[48] == 227 && PRIMES[49] == 229 && PRIMES[50] == 233 && PRIMES[51] == 239
    ensures PRIMES[52] == 241 && PRIMES[53] == 251 && PRIMES[54] == 257 && PRIMES[55] == 263
    ensures PRIMES[56] == 269 && PRIMES[57] == 271 && PRIMES[58] == 277 && PRIMES[59] == 281
    ensures PRIMES[60] == 283 && PRIMES[61] == 293 && PRIMES[62] == 307 && PRIMES[63] == 311
  {
  }

  lemma Keys0()
    ensures |ROUND| == 64
    ensures ROUND[0] == 0x428a_2f98 && ROUND[1] == 0x7137_4491 && ROUND[2] == 0xb5c0_fbcf && ROUND[3] == 0xe9b5_dba5
    ensures ROUND[4] == 0x3956_c25b && ROUND[5] == 0x59f1_11f1 && ROUND[6] == 0x923f_82a4 && ROUND[7] == 0xab1c_5ed5
    ensures ROUND[8] == 0xd807_aa98 && ROUND[9] == 0x1283_5b01 && ROUND[10] == 0x2431_85be && ROUND[11] == 0x550c_7dc3
    ensures ROUND[12] == 0x72be_5d74 && ROUND[13] == 0x80de_b1fe && ROUND[14] == 0x9bdc_06a7 && ROUND[15] == 0xc19b_f174
  {
  }

  lemma Keys16()
    ensures |ROUND| == 64
    ensures ROUND[16] == 0xe49b_69c1 && ROUND[17] == 0xefbe_4786 && ROUND[18] == 0x0fc1_9dc6 && ROUND[19] == 0x240c_a1cc
    ensures ROUND[20] == 0x2de9_2c6f && ROUND[21] == 0x4a74_84aa && ROUND[22] == 0x5cb0_a9dc && ROUND[23] == 0x76f9_88da
    ensures ROUND[24] == 0x983e_5152 && ROUND[25] == 0xa831_c66d && ROUND[26] == 0xb003_27c8 && ROUND[27] == 0xbf59_7fc7
    ensures ROUND[28] == 0xc6e0_0bf3 && ROUND[29] == 0xd5a7_9147 && ROUND[30] == 0x06ca_6351 && ROUND[31] == 0x1429_2967
  {
  }

  lemma Keys32()
    ensures |ROUND| == 64
    ensures ROUND[32] == 0x27b7_0a85 && ROUND[33] == 0x2e1b_2138 && ROUND[34] == 0x4d2c_6dfc && ROUND[35] == 0x5338_0d13
    ensures ROUND[36] == 0x650a_7354 && ROUND[37] == 0x766a_0abb && ROUND[38] == 0x81c2_c92e && ROUND[39] == 0x9272_2c85
    ensures ROUND[40] == 0xa2bf_e8a1 && ROUND[41] == 0xa81a_664b && ROUND[42] == 0xc24b_8b70 && ROUND[43] == 0xc76c_51a3
    ensures ROUND[44] == 0xd192_e819 && ROUND[45] == 0xd699_0624 && ROUND[46] == 0xf40e_3585 && ROUND[47] == 0x106a_a070
  {
  }

  lemma Keys48()
    ensures |ROUND| == 64
    ensures ROUND[48] == 0x19a4_c116 && ROUND[49] == 0x1e37_6c08 && ROUND[50] == 0x2748_774c && ROUND[51] == 0x34b0_bcb5
    ensures ROUND[52] == 0x391c_0cb3 && ROUND[53] == 0x4ed8_aa4a && ROUND[54] == 0x5b9c_ca4f && ROUND[55] == 0x682e_6ff3
    ensures ROUND[56] == 0x748f_82ee && ROUND[57] == 0x78a5_636f && ROUND[58] == 0x84c8_7814 && ROUND[59] == 0x8cc7_0208
    ensures ROUND[60] == 0x90be_fffa && ROUND[61] == 0xa450_6ceb && ROUND[62] == 0xbef9_a3f7 && ROUND[63] == 0xc671_78f2
  {
  }

  lemma Cubes0()
    ensures |ROUND| == |PRIMES| == 64
    ensures forall i | 0 <= i < 16 :: CubeFraction(PRIMES[i], ROUND[i])
  {
    hide CubeFraction, ROUND, PRIMES;
    CubeIs(2, 0x1_428a_2f98, 0x428a_2f98);
    CubeIs(3, 0x1_7137_4491, 0x7137_4491);
    CubeIs(5, 0x1_b5c0_fbcf, 0xb5c0_fbcf);
    CubeIs(7, 0x1_e9b5_dba5, 0xe9b5_dba5);
    CubeIs(11, 0x2_3956_c25b, 0x3956_c25b);
    CubeIs(13, 0x2_59f1_11f1, 0x59f1_11f1);
    CubeIs(17, 0x2_923f_82a4, 0x923f_82a4);
    CubeIs(19, 0x2_ab1c_5ed5, 0xab1c_5ed5);
    CubeIs(23, 0x2_d807_aa98, 0xd807_aa98);
    CubeIs(29, 0x3_1283_5b01, 0x1283_5b01);
    CubeIs(31, 0x3_2431_85be, 0x2431_85be);
    CubeIs(37, 0x3_550c_7dc3, 0x550c_7dc3);
    CubeIs(41, 0x3_72be_5d74, 0x72be_5d74);
    CubeIs(43, 0x3_80de_b1fe, 0x80de_b1fe);
    CubeIs(47, 0x3_9bdc_06a7, 0x9bdc_06a7);
    CubeIs(53, 0x3_c19b_f174, 0xc19b_f174);
    Keys0();
    PrimesAt0();
  }

  lemma Cubes16()
    ensures |ROUND| == |PRIMES| == 64
    ensures forall i | 16 <= i < 32 :: CubeFraction(PRIMES[i], ROUND[i])
  {
    hide CubeFraction, ROUND, PRIMES;
    CubeIs(59, 0x3_e49b_69c1, 0xe49b_69c1);
    CubeIs(61, 0x3_efbe_4786, 0xefbe_4786);
    CubeIs(67, 0x4_0fc1_9dc6, 0x0fc1_9dc6);
    CubeIs(71, 0x4_240c_a1cc, 0x240c_a1cc);
    CubeIs(73, 0x4_2de9_2c6f, 0x2de9_2c6f);
    CubeIs(79, 0x4_4a74_84aa, 0x4a74_84aa);
    CubeIs(83, 0x4_5cb0_a9dc, 0x5cb0_a9dc);
    CubeIs(89, 0x4_76f9_88da, 0x76f9_88da);
    CubeIs(97, 0x4_983e_5152, 0x983e_5152);
    CubeIs(101, 0x4_a831_c66d, 0xa831_c66d);
    CubeIs(103, 0x4_b003_27c8, 0xb003_27c8);
    CubeIs(107, 0x4_bf59_7fc7, 0xbf59_7fc7);
    CubeIs(109, 0x4_c6e0_0bf3, 0xc6e0_0bf3);
    CubeIs(113, 0x4_d5a7_9147, 0xd5a7_9147);
    CubeIs(127, 0x5_06ca_6351, 0x06ca_6351);
    CubeIs(131, 0x5_1429_2967, 0x1429_2967);
    Keys16();
    PrimesAt16();
  }

  lemma Cubes32()
    ensures |ROUND| == |PRIMES| == 64
    ensures forall i | 32 <= i < 48 :: CubeFraction(PRIMES[i], ROUND[i])
  {
    hide CubeFraction, ROUND, PRIMES;
    CubeIs(137, 0x5_27b7_0a85, 0x27b7_0a85);
    CubeIs(139, 0x5_2e1b_2138, 0x2e1b_2138);
    CubeIs(149, 0x5_4d2c_6dfc, 0x4d2c_6dfc);
    CubeIs(151, 0x5_5338_0d13, 0x5338_0d13);
    CubeIs(157, 0x5_650a_7354, 0x650a_7354);
    CubeIs(163, 0x5_766a_0abb, 0x766a_0abb);
    CubeIs(167, 0x5_81c2_c92e, 0x81c2_c92e);
    CubeIs(173, 0x5_9272_2c85, 0x9272_2c85);
    CubeIs(179, 0x5_a2bf_e8a1, 0xa2bf_e8a1);
    CubeIs(181, 0x5_a81a_664b, 0xa81a_664b);
    CubeIs(191, 0x5_c24b_8b70, 0xc24b_8b70);
    CubeIs(193, 0x5_c76c_51a3, 0xc76c_51a3);
    CubeIs(197, 0x5_d192_e819, 0xd192_e819);
    CubeIs(199, 0x5_d699_0624, 0xd699_0624);
    CubeIs(211, 0x5_f40e_3585, 0xf40e_3585);
    CubeIs(223, 0x6_106a_a070, 0x106a_a070);
    Keys32();
    PrimesAt32();
  }

  lemma Cubes48()
    ensures |ROUND| == |PRIMES| == 64
    ensures forall i | 48 <= i < 64 :: CubeFraction(PRIMES[i], ROUND[i])
  {
    hide CubeFraction, ROUND, PRIMES;
    CubeIs(227, 0x6_19a4_c116, 0x19a4_c116);
    CubeIs(229, 0x6_1e37_6c08, 0x1e37_6c08);
    CubeIs(233, 0x6_2748_774c, 0x2748_774c);
    CubeIs(239, 0x6_34b0_bcb5, 0x34b0_bcb5);
    CubeIs(241, 0x6_391c_0cb3, 0x391c_0cb3);
    CubeIs(251, 0x6_4ed8_aa4a, 0x4ed8_aa4a);
    CubeIs(257, 0x6_5b9c_ca4f, 0x5b9c_ca4f);
    CubeIs(263, 0x6_682e_6ff3, 0x682e_6ff3);
    CubeIs(269, 0x6_748f_82ee, 0x748f_82ee);
    CubeIs(271, 0x6_78a5_636f, 0x78a5_636f);
    CubeIs(277, 0x6_84c8_7814, 0x84c8_7814);
    CubeIs(281, 0x6_8cc7_0208, 0x8cc7_0208);
    CubeIs(283, 0x6_90be_fffa, 0x90be_fffa);
    CubeIs(293, 0x6_a450_6ceb, 0xa450_6ceb);
    CubeIs(307, 0x6_bef9_a3f7, 0xbef9_a3f7);
    CubeIs(311, 0x6_c671_78f2, 0xc671_78f2);
    Keys48();
    PrimesAt48();
  }

  lemma Squares()
    ensures |INITIAL| == 8 <= |PRIMES|
    ensures forall i | 0 <= i < 8 :: SquareFraction(PRIMES[i], INITIAL[i])
  {
    SquareIs(2, 0x1_6a09_e667, 0x6a09_e667);
    SquareIs(3, 0x1_bb67_ae85, 0xbb67_ae85);
    SquareIs(5, 0x2_3c6e_f372, 0x3c6e_f372);
    SquareIs(7, 0x2_a54f_f53a, 0xa54f_f53a);
    SquareIs(11, 0x3_510e_527f, 0x510e_527f);
    SquareIs(13, 0x3_9b05_688c, 0x9b05_688c);
    SquareIs(17, 0x4_1f83_d9ab, 0x1f83_d9ab);
    SquareIs(19, 0x4_5be0_cd19, 0x5be0_cd19);
    hide SquareFraction;
  }

  // Every round constant is the fraction of the cube root of its prime, every initial word
  // that of the square root.
  lemma ConstantsAre()
    ensures |Primes(311)| == |ROUND| == 64 && |INITIAL| == 8
    ensures forall i | 0 <= i < 64 :: CubeFraction(Primes(311)[i], ROUND[i])
    ensures forall i | 0 <= i < 8 :: SquareFraction(Primes(311)[i], INITIAL[i])
  {
    hide Primes, PRIMES, ROUND, INITIAL, CubeFraction, SquareFraction;
    PrimesAre();
    Cubes0();
    Cubes16();
    Cubes32();
    Cubes48();
    Squares();
  }

  // There is one such word.
  lemma CubeFractionUnique(p: nat, k: Word, k': Word)
    requires CubeFraction(p, k) && CubeFraction(p, k')
    ensures k == k'
  {
    var c: nat :| CubeRoot(p, c) && k as nat == c % 0x1_0000_0000;
    var c': nat :| CubeRoot(p, c') && k' as nat == c' % 0x1_0000_0000;
    CubesGrow(p, c, c');
    CubesGrow(p, c', c);
    SameWord(k, k');
  }

  lemma CubesGrow(p: nat, c: nat, d: nat)
    requires CubeRoot(p, c) && CubeRoot(p, d)
    ensures c >= d
  {
    if c < d { CubeGrows(c + 1, d); }
  }

  lemma CubeGrows(a: nat, b: nat)
    requires a <= b
    ensures a * a * a <= b * b * b
  {
    SquareGrows(a, b);
    MulLe(a * a, b * b, a);
    MulLe(a, b, b * b);
  }

  lemma SquareGrows(a: nat, b: nat)
    requires a <= b
    ensures a * a <= b * b
  {
    MulLe(a, b, a);
    MulLe(a, b, b);
  }

  lemma SquareFractionUnique(p: nat, k: Word, k': Word)
    requires SquareFraction(p, k) && SquareFraction(p, k')
    ensures k == k'
  {
    var c: nat :| SquareRoot(p, c) && k as nat == c % 0x1_0000_0000;
    var c': nat :| SquareRoot(p, c') && k' as nat == c' % 0x1_0000_0000;
    SquaresGrow(p, c, c');
    SquaresGrow(p, c', c);
    SameWord(k, k');
  }

  lemma SquaresGrow(p: nat, c: nat, d: nat)
    requires SquareRoot(p, c) && SquareRoot(p, d)
    ensures c >= d
  {
    if c < d { SquareGrows(c + 1, d); }
  }

  lemma SameWord(k: Word, k': Word)
    requires k as nat == k' as nat
    ensures k == k'
  {
    assert (k as nat) as Word == k;
  }

  // ---- Bit functions ----

  // Ch takes y where x has ones and z elsewhere.
  lemma ChMeans(x: Word, y: Word, z: Word)
    ensures Ch(x, y, z) & x == y & x && Ch(x, y, z) & !x == z & !x
  {
  }

  // Maj keeps what x and y agree on, and takes z where they differ.
  lemma MajMeans(x: Word, y: Word, z: Word)
    ensures Maj(x, y, z) & !(x ^ y) == x & !(x ^ y) && Maj(x, y, z) & (x ^ y) == z & (x ^ y)
  {
  }

  // Rotr moves the low n bits to the top and the others down.
  lemma RotrMeans(x: Word, n: Word)
    requires 0 < n < 32
    ensures Rotr(x, n) >> (32 - n) == x & ((1 << n) - 1) && Rotr(x, n) & ((1 << (32 - n)) - 1) == x >> n
  {
  }

}
