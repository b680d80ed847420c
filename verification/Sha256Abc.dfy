// A known answer, worked out round by round: the digest of "abc" (FIPS 180-4's example).
module Sha256Abc {
  import opened Prelude
  import opened Sha256Spec
  import opened Sha256Constants

  // ---- The rounds with a rolling schedule ----

  // The next sixteen words of the schedule.
  datatype Window = Window(
    w0: Word, w1: Word, w2: Word, w3: Word, w4: Word, w5: Word, w6: Word, w7: Word,
    w8: Word, w9: Word, w10: Word, w11: Word, w12: Word, w13: Word, w14: Word, w15: Word)

  function Slide(w: Window): Window {
    Window(w.w1, w.w2, w.w3, w.w4, w.w5, w.w6, w.w7, w.w8, w.w9, w.w10, w.w11, w.w12, w.w13, w.w14, w.w15,
           Extend(w.w14, w.w9, w.w1, w.w0))
  }

  // Rounds `from` to `end`.
  function Run(v: Vars, w: Window, from: nat, end: nat): (Vars, Window)
    requires from <= end <= 64
    decreases end - from
  {
    if from == end then (v, w) else Run(Round(v, ROUND[from], w.w0), Slide(w), from + 1, end)
  }

  ghost function WindowAt(block: Block, t: nat): Window {
    Window(Schedule(block, t), Schedule(block, t + 1), Schedule(block, t + 2), Schedule(block, t + 3),
           Schedule(block, t + 4), Schedule(block, t + 5), Schedule(block, t + 6), Schedule(block, t + 7),
           Schedule(block, t + 8), Schedule(block, t + 9), Schedule(block, t + 10), Schedule(block, t + 11),
           Schedule(block, t + 12), Schedule(block, t + 13), Schedule(block, t + 14), Schedule(block, t + 15))
  }

  lemma Slides(block: Block, t: nat)
    ensures Slide(WindowAt(block, t)) == WindowAt(block, t + 1)
  {
    hide Extend, WordAt;
  }

  lemma {:induction false} RunIsRounds(start: Vars, block: Block, from: nat, end: nat)
    requires from <= end <= 64
    ensures Run(Rounds(start, block, from), WindowAt(block, from), from, end)
         == (Rounds(start, block, end), WindowAt(block, end))
    decreases end - from
  {
    hide Round, WindowAt, Slide, Schedule;
    if from < end {
      Slides(block, from);
      FirstWord(block, from);
      RunIsRounds(start, block, from + 1, end);
    }
  }

  lemma FirstWord(block: Block, t: nat)
    ensures WindowAt(block, t).w0 == Schedule(block, t)
  {
  }

  lemma {:induction false} RunSplits(v: Vars, w: Window, from: nat, mid: nat, end: nat)
    requires from <= mid <= end <= 64
    ensures var (v', w') := Run(v, w, from, mid); Run(v, w, from, end) == Run(v', w', mid, end)
    decreases mid - from
  {
    hide Round, Slide;
    if from < mid { RunSplits(Round(v, ROUND[from], w.w0), Slide(w), from + 1, mid, end); }
  }

  // ---- The values on the way ----

  const V0 := Vars(
    0x6a09_e667, 0xbb67_ae85, 0x3c6e_f372, 0xa54f_f53a, 0x510e_527f, 0x9b05_688c, 0x1f83_d9ab, 0x5be0_cd19)
  const V4 := Vars(
    0xd550_f666, 0xc8c3_47a7, 0x5a6a_d9ad, 0x5d6a_ebcd, 0x24e0_0850, 0xf929_39eb, 0x78ce_7989, 0xfa2a_4622)
  const V8 := Vars(
    0x85a0_7b5f, 0xe503_0380, 0x2b42_09f5, 0x0440_9a6a, 0x0c65_7a79, 0x9b27_a401, 0x7142_60ad, 0x43ad_a245)
  const V12 := Vars(
    0xf71f_c5a9, 0x4798_a3f4, 0x8c87_346b, 0x8e04_ecb9, 0x816f_d6e9, 0x436b_23e8, 0x1cc9_2596, 0x32ca_2d8c)
  const V16 := Vars(
    0xb0fa_238e, 0xc064_5fde, 0xd932_eb16, 0x8791_2990, 0x0759_0dcd, 0x0b92_f20c, 0x745a_48de, 0x1e57_8218)
  const V20 := Vars(
    0xe1f2_0c33, 0xfe77_7bbf, 0xc2fb_d9d1, 0x21da_9a9b, 0xb063_8179, 0xcc89_9961, 0x846e_e454, 0x8034_229c)
  const V24 := Vars(
    0xc5d5_3d8d, 0xa7a3_623f, 0xc260_6d6d, 0x9dc6_8b63, 0xaa47_c347, 0x49f5_114a, 0xe125_7970, 0x8ada_8930)
  const V28 := Vars(
    0x77d3_7528, 0xb62e_c4bc, 0xcde8_037d, 0x1c2c_2838, 0xedff_bff8, 0xc74c_6516, 0x1438_3d8e, 0x2823_ef91)
  const V32 := Vars(
    0x73b3_3bf5, 0xea99_2a22, 0xa006_0b30, 0x3634_82c9, 0xba59_1112, 0x0109_ab3a, 0xade7_9437, 0x6112_a3b7)
  const V36 := Vars(
    0x65a0_cfe4, 0xa9a7_738c, 0xfe60_4df5, 0x98e1_2507, 0xf4b0_02d6, 0x085f_3833, 0x5924_9dd3, 0x9cd9_f5f6)
  const V40 := Vars(
    0x79ea_687a, 0x6dc5_7a8a, 0x34df_1604, 0x41a6_5cb1, 0x1efb_c0a0, 0xf078_1bc8, 0xa507_a53d, 0x0772_a26b)
  const V44 := Vars(
    0x9d4b_af93, 0x17aa_0dfe, 0xdf46_652f, 0xd667_0766, 0xfda2_4c2e, 0xdecd_4715, 0x838b_2711, 0x2635_2d63)
  const V48 := Vars(
    0x4172_328d, 0xa14c_14b0, 0x72ab_4b91, 0x2662_8815, 0xfecf_0bc6, 0xd57b_94a9, 0xb775_5da1, 0xa80f_11f0)
  const V52 := Vars(
    0x886e_7a22, 0x7a05_08a1, 0xf11b_faa8, 0x0575_7ceb, 0x4923_1c1e, 0x52f1_ccf7, 0x6e5c_390c, 0xbd71_4038)
  const V56 := Vars(
    0x38cc_9913, 0x3ec4_5cdb, 0xf570_2fdb, 0x101f_d28f, 0x54cb_266b, 0xe50e_1b4f, 0x9f47_87c3, 0x529e_7d00)
  const V60 := Vars(
    0xb6ae_8fff, 0xffb7_0472, 0xc062_d46f, 0xfcd1_887b, 0xb21b_ad3d, 0x6d83_bfc6, 0x7e44_008e, 0x9b5e_906c)
  const V64 := Vars(
    0x506e_3058, 0xd39a_2165, 0x04d2_4d6c, 0xb85e_2ce9, 0x5ef5_0f24, 0xfb12_1210, 0x948d_25b6, 0x961f_4894)

  const W0 := Window(
    0x6162_6380, 0x0000_0000, 0x0000_0000, 0x0000_0000, 0x0000_0000, 0x0000_0000, 0x0000_0000, 0x0000_0000,
    0x0000_0000, 0x0000_0000, 0x0000_0000, 0x0000_0000, 0x0000_0000, 0x0000_0000, 0x0000_0000, 0x0000_0018)
  const W4 := Window(
    0x0000_0000, 0x0000_0000, 0x0000_0000, 0x0000_0000, 0x0000_0000, 0x0000_0000, 0x0000_0000, 0x0000_0000,
    0x0000_0000, 0x0000_0000, 0x0000_0000, 0x0000_0018, 0x6162_6380, 0x000f_0000, 0x7da8_6405, 0x6000_03c6)
  const W8 := Window(
    0x0000_0000, 0x0000_0000, 0x0000_0000, 0x0000_0000, 0x0000_0000, 0x0000_0000, 0x0000_0000, 0x0000_0018,
    0x6162_6380, 0x000f_0000, 0x7da8_6405, 0x6000_03c6, 0x3e9d_7b78, 0x0183_fc00, 0x12dc_bfdb, 0xe2e2_c38e)
  const W12 := Window(
    0x0000_0000, 0x0000_0000, 0x0000_0000, 0x0000_0018, 0x6162_6380, 0x000f_0000, 0x7da8_6405, 0x6000_03c6,
    0x3e9d_7b78, 0x0183_fc00, 0x12dc_bfdb, 0xe2e2_c38e, 0xc821_5c1a, 0xb736_79a2, 0xe5bc_3909, 0x3266_3c5b)
  const W16 := Window(
    0x6162_6380, 0x000f_0000, 0x7da8_6405, 0x6000_03c6, 0x3e9d_7b78, 0x0183_fc00, 0x12dc_bfdb, 0xe2e2_c38e,
    0xc821_5c1a, 0xb736_79a2, 0xe5bc_3909, 0x3266_3c5b, 0x9d20_9d67, 0xec87_26cb, 0x7021_38a4, 0xd3b7_973b)
  const W20 := Window(
    0x3e9d_7b78, 0x0183_fc00, 0x12dc_bfdb, 0xe2e2_c38e, 0xc821_5c1a, 0xb736_79a2, 0xe5bc_3909, 0x3266_3c5b,
    0x9d20_9d67, 0xec87_26cb, 0x7021_38a4, 0xd3b7_973b, 0x93f5_997f, 0x3b68_ba73, 0xaff4_ffc1, 0xf10a_5c62)
  const W24 := Window(
    0xc821_5c1a, 0xb736_79a2, 0xe5bc_3909, 0x3266_3c5b, 0x9d20_9d67, 0xec87_26cb, 0x7021_38a4, 0xd3b7_973b,
    0x93f5_997f, 0x3b68_ba73, 0xaff4_ffc1, 0xf10a_5c62, 0x0a8b_3996, 0x72af_830a, 0x9409_e33e, 0x2464_1522)
  const W28 := Window(
    0x9d20_9d67, 0xec87_26cb, 0x7021_38a4, 0xd3b7_973b, 0x93f5_997f, 0x3b68_ba73, 0xaff4_ffc1, 0xf10a_5c62,
    0x0a8b_3996, 0x72af_830a, 0x9409_e33e, 0x2464_1522, 0x9f47_bf94, 0xf0a6_4f5a, 0x3e24_6a79, 0x2733_3ba3)
  const W32 := Window(
    0x93f5_997f, 0x3b68_ba73, 0xaff4_ffc1, 0xf10a_5c62, 0x0a8b_3996, 0x72af_830a, 0x9409_e33e, 0x2464_1522,
    0x9f47_bf94, 0xf0a6_4f5a, 0x3e24_6a79, 0x2733_3ba3, 0x0c47_63f2, 0x840a_bf27, 0x7a29_0d5d, 0x065c_43da)
  const W36 := Window(
    0x0a8b_3996, 0x72af_830a, 0x9409_e33e, 0x2464_1522, 0x9f47_bf94, 0xf0a6_4f5a, 0x3e24_6a79, 0x2733_3ba3,
    0x0c47_63f2, 0x840a_bf27, 0x7a29_0d5d, 0x065c_43da, 0xfb3e_89cb, 0xcc76_17db, 0xb9e6_6c34, 0xa999_3667)
  const W40 := Window(
    0x9f47_bf94, 0xf0a6_4f5a, 0x3e24_6a79, 0x2733_3ba3, 0x0c47_63f2, 0x840a_bf27, 0x7a29_0d5d, 0x065c_43da,
    0xfb3e_89cb, 0xcc76_17db, 0xb9e6_6c34, 0xa999_3667, 0x84ba_dedd, 0xc214_62bc, 0x1487_472c, 0xb20f_7a99)
  const W44 := Window(
    0x0c47_63f2, 0x840a_bf27, 0x7a29_0d5d, 0x065c_43da, 0xfb3e_89cb, 0xcc76_17db, 0xb9e6_6c34, 0xa999_3667,
    0x84ba_dedd, 0xc214_62bc, 0x1487_472c, 0xb20f_7a99, 0xef57_b9cd, 0xebe6_b238, 0x9fe3_095e, 0x78bc_8d4b)
  const W48 := Window(
    0xfb3e_89cb, 0xcc76_17db, 0xb9e6_6c34, 0xa999_3667, 0x84ba_dedd, 0xc214_62bc, 0x1487_472c, 0xb20f_7a99,
    0xef57_b9cd, 0xebe6_b238, 0x9fe3_095e, 0x78bc_8d4b, 0xa43f_cf15, 0x668b_2ff8, 0xeeab_a2cc, 0x12b1_edeb)
  const W52 := Window(
    0x84ba_dedd, 0xc214_62bc, 0x1487_472c, 0xb20f_7a99, 0xef57_b9cd, 0xebe6_b238, 0x9fe3_095e, 0x78bc_8d4b,
    0xa43f_cf15, 0x668b_2ff8, 0xeeab_a2cc, 0x12b1_edeb, 0xb80a_5a34, 0x1ce7_97d5, 0x310f_c1d7, 0xa319_68ce)
  const W56 := Window(
    0xef57_b9cd, 0xebe6_b238, 0x9fe3_095e, 0x78bc_8d4b, 0xa43f_cf15, 0x668b_2ff8, 0xeeab_a2cc, 0x12b1_edeb,
    0xb80a_5a34, 0x1ce7_97d5, 0x310f_c1d7, 0xa319_68ce, 0x7d8c_e042, 0xd589_2c87, 0x0ef2_e48b, 0x8647_6aaa)
  const W60 := Window(
    0xa43f_cf15, 0x668b_2ff8, 0xeeab_a2cc, 0x12b1_edeb, 0xb80a_5a34, 0x1ce7_97d5, 0x310f_c1d7, 0xa319_68ce,
    0x7d8c_e042, 0xd589_2c87, 0x0ef2_e48b, 0x8647_6aaa, 0xfb3b_cd9a, 0xe1ab_f701, 0x9cf1_94d1, 0x47ad_031d)
  const W64 := Window(
    0xb80a_5a34, 0x1ce7_97d5, 0x310f_c1d7, 0xa319_68ce, 0x7d8c_e042, 0xd589_2c87, 0x0ef2_e48b, 0x8647_6aaa,
    0xfb3b_cd9a, 0xe1ab_f701, 0x9cf1_94d1, 0x47ad_031d, 0xaa81_2721, 0x0436_0d9c, 0xdb5a_e899, 0xbe66_bc93)

  lemma Turn0()
    ensures Run(V0, W0, 0, 4) == (V4, W4)
  {
    hide ROUND;
    Keys0();
  }

  lemma Turn4()
    ensures Run(V4, W4, 4, 8) == (V8, W8)
  {
    hide ROUND;
    Keys0();
  }

  lemma Turn8()
    ensures Run(V8, W8, 8, 12) == (V12, W12)
  {
    hide ROUND;
    Keys0();
  }

  lemma Turn12()
    ensures Run(V12, W12, 12, 16) == (V16, W16)
  {
    hide ROUND;
    Keys0();
  }

  lemma Turn16()
    ensures Run(V16, W16, 16, 20) == (V20, W20)
  {
    hide ROUND;
    Keys16();
  }

  lemma Turn20()
    ensures Run(V20, W20, 20, 24) == (V24, W24)
  {
    hide ROUND;
    Keys16();
  }

  lemma Turn24()
    ensures Run(V24, W24, 24, 28) == (V28, W28)
  {
    hide ROUND;
    Keys16();
  }

  lemma Turn28()
    ensures Run(V28, W28, 28, 32) == (V32, W32)
  {
    hide ROUND;
    Keys16();
  }

  lemma Turn32()
    ensures Run(V32, W32, 32, 36) == (V36, W36)
  {
    hide ROUND;
    Keys32();
  }

  lemma Turn36()
    ensures Run(V36, W36, 36, 40) == (V40, W40)
  {
    hide ROUND;
    Keys32();
  }

  lemma Turn40()
    ensures Run(V40, W40, 40, 44) == (V44, W44)
  {
    hide ROUND;
    Keys32();
  }

  lemma Turn44()
    ensures Run(V44, W44, 44, 48) == (V48, W48)
  {
    hide ROUND;
    Keys32();
  }

  lemma Turn48()
    ensures Run(V48, W48, 48, 52) == (V52, W52)
  {
    hide ROUND;
    Keys48();
  }

  lemma Turn52()
    ensures Run(V52, W52, 52, 56) == (V56, W56)
  {
    hide ROUND;
    Keys48();
  }

  lemma Turn56()
    ensures Run(V56, W56, 56, 60) == (V60, W60)
  {
    hide ROUND;
    Keys48();
  }

  lemma Turn60()
    ensures Run(V60, W60, 60, 64) == (V64, W64)
  {
    hide ROUND;
    Keys48();
  }

  lemma AllTurns()
    ensures Run(V0, W0, 0, 64).0 == V64
  {
    hide *;
    Turn0();
    Turn4();
    RunSplits(V0, W0, 0, 4, 8);
    Turn8();
    RunSplits(V0, W0, 0, 8, 12);
    Turn12();
    RunSplits(V0, W0, 0, 12, 16);
    Turn16();
    RunSplits(V0, W0, 0, 16, 20);
    Turn20();
    RunSplits(V0, W0, 0, 20, 24);
    Turn24();
    RunSplits(V0, W0, 0, 24, 28);
    Turn28();
    RunSplits(V0, W0, 0, 28, 32);
    Turn32();
    RunSplits(V0, W0, 0, 32, 36);
    Turn36();
    RunSplits(V0, W0, 0, 36, 40);
    Turn40();
    RunSplits(V0, W0, 0, 40, 44);
    Turn44();
    RunSplits(V0, W0, 0, 44, 48);
    Turn48();
    RunSplits(V0, W0, 0, 48, 52);
    Turn52();
    RunSplits(V0, W0, 0, 52, 56);
    Turn56();
    RunSplits(V0, W0, 0, 56, 60);
    Turn60();
    RunSplits(V0, W0, 0, 60, 64);
  }

  // ---- "abc" ----

  const ABC: seq<byte> := [0x61, 0x62, 0x63]

  // "abc", the marker, zeros, and 24, its length in bits.
  ghost predicate IsAbc(block: Block) {
    && block[0] == 0x61 && block[1] == 0x62 && block[2] == 0x63 && block[3] == 0x80 && block[63] == 24
    && forall i | 4 <= i < 63 :: block[i] == 0
  }

  lemma {:induction false} NothingEncoded(n: nat)
    ensures forall i | 0 <= i < n :: BigEndian(0, n)[i] == 0
  {
    if n > 0 { NothingEncoded(n - 1); }
  }

  lemma AbcPadded()
    ensures |Pad(ABC)| == 64 && IsAbc(Pad(ABC))
  {
    var field := BigEndian(24, 8);
    NothingEncoded(7);
    assert field == BigEndian(0, 7) + [24];
    hide BigEndian;
    assert ZeroCount(3) == 52;
    assert Pad(ABC) == ABC + [0x80] + Zeros(52) + field;
  }

  lemma AbcWords(block: Block)
    requires IsAbc(block)
    ensures WordAt(block, 0) == 0x6162_6380 && WordAt(block, 15) == 24
    ensures forall t: nat | 1 <= t < 15 :: WordAt(block, t) == 0
  {
  }

  lemma AbcWindow(block: Block)
    requires IsAbc(block)
    ensures WindowAt(block, 0) == W0
  {
    AbcWords(block);
    hide WordAt;
    assert forall t: nat | t < 16 :: Schedule(block, t) == WordAt(block, t);
  }

  const DIGEST: seq<Word> := [
    0xba78_16bf, 0x8f01_cfea, 0x4141_40de, 0x5dae_2223,
    0xb003_61a3, 0x9617_7a9c, 0xb410_ff61, 0xf200_15ad]

  lemma AbcCompressed(block: Block)
    requires IsAbc(block)
    ensures Compress(INITIAL, block) == DIGEST
  {
    AbcWindow(block);
    AllTurns();
    FirstVars(block);
    RunIsRounds(V0, block, 0, 64);
    hide Rounds, Run, WindowAt, Schedule, W0;
    Sums();
  }

  lemma FirstVars(block: Block)
    ensures |INITIAL| == 8 && ToVars(INITIAL) == V0 && Rounds(V0, block, 0) == V0
  {
  }

  lemma Sums()
    ensures |INITIAL| == 8
    ensures [Plus(INITIAL[0], V64.a), Plus(INITIAL[1], V64.b), Plus(INITIAL[2], V64.c), Plus(INITIAL[3], V64.d),
             Plus(INITIAL[4], V64.e), Plus(INITIAL[5], V64.f), Plus(INITIAL[6], V64.g), Plus(INITIAL[7], V64.h)]
         == DIGEST
  {
  }

  lemma OneBlock(block: Block)
    ensures CompressAll(INITIAL, block) == Compress(INITIAL, block)
  {
    hide Compress, INITIAL;
    assert block[..|block| - 64] == [] && block[|block| - 64..] == block;
  }

  lemma StateAppends(s: seq<Word>, w: Word)
    ensures StateBytes(s + [w]) == StateBytes(s) + WordBytes(w)
  {
    hide WordBytes;
    assert (s + [w])[..|s|] == s;
  }

  lemma DigestBytes()
    ensures StateBytes(DIGEST) == ABC_DIGEST
  {
    hide WordBytes, StateBytes;
    WordsAsBytes();
    NoBytes();
    StateAppends(DIGEST[..0], DIGEST[0]);
    assert DIGEST[..0] + [DIGEST[0]] == DIGEST[..1];
    StateAppends(DIGEST[..1], DIGEST[1]);
    assert DIGEST[..1] + [DIGEST[1]] == DIGEST[..2];
    StateAppends(DIGEST[..2], DIGEST[2]);
    assert DIGEST[..2] + [DIGEST[2]] == DIGEST[..3];
    StateAppends(DIGEST[..3], DIGEST[3]);
    assert DIGEST[..3] + [DIGEST[3]] == DIGEST[..4];
    StateAppends(DIGEST[..4], DIGEST[4]);
    assert DIGEST[..4] + [DIGEST[4]] == DIGEST[..5];
    StateAppends(DIGEST[..5], DIGEST[5]);
    assert DIGEST[..5] + [DIGEST[5]] == DIGEST[..6];
    StateAppends(DIGEST[..6], DIGEST[6]);
    assert DIGEST[..6] + [DIGEST[6]] == DIGEST[..7];
    StateAppends(DIGEST[..7], DIGEST[7]);
    assert DIGEST[..7] + [DIGEST[7]] == DIGEST[..8];
    assert DIGEST[..8] == DIGEST;
  }

  lemma NoBytes()
    ensures StateBytes([]) == []
  {
  }

  lemma WordsAsBytes()
    ensures WordBytes(0xba78_16bf) == [0xba, 0x78, 0x16, 0xbf]
    ensures WordBytes(0x8f01_cfea) == [0x8f, 0x01, 0xcf, 0xea]
    ensures WordBytes(0x4141_40de) == [0x41, 0x41, 0x40, 0xde]
    ensures WordBytes(0x5dae_2223) == [0x5d, 0xae, 0x22, 0x23]
    ensures WordBytes(0xb003_61a3) == [0xb0, 0x03, 0x61, 0xa3]
    ensures WordBytes(0x9617_7a9c) == [0x96, 0x17, 0x7a, 0x9c]
    ensures WordBytes(0xb410_ff61) == [0xb4, 0x10, 0xff, 0x61]
    ensures WordBytes(0xf200_15ad) == [0xf2, 0x00, 0x15, 0xad]
  {
  }

  const ABC_DIGEST: seq<byte> :=
    [0xba, 0x78, 0x16, 0xbf] + [0x8f, 0x01, 0xcf, 0xea] +
    [0x41, 0x41, 0x40, 0xde] + [0x5d, 0xae, 0x22, 0x23] +
    [0xb0, 0x03, 0x61, 0xa3] + [0x96, 0x17, 0x7a, 0x9c] +
    [0xb4, 0x10, 0xff, 0x61] + [0xf2, 0x00, 0x15, 0xad]

  lemma AbcHash()
    ensures Hash(ABC) == ABC_DIGEST
  {
    hide *;
    AbcPadded();
    AbcCompressed(Pad(ABC));
    OneBlock(Pad(ABC));
    DigestBytes();
    HashIs(ABC);
  }

  lemma HashIs(message: seq<byte>)
    ensures Hash(message) == StateBytes(CompressAll(INITIAL, Pad(message)))
  {
  }
}
