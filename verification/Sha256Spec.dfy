// SHA-256 as FIPS 180-4 defines it, and the incremental class that must agree.
module Sha256Spec {
  import opened Prelude

  type Word = bv32

  // Section 4.2.2.
  const ROUND_0: seq<Word> := [
    0x428a_2f98, 0x7137_4491, 0xb5c0_fbcf, 0xe9b5_dba5,
    0x3956_c25b, 0x59f1_11f1, 0x923f_82a4, 0xab1c_5ed5]
  const ROUND_1: seq<Word> := [
    0xd807_aa98, 0x1283_5b01, 0x2431_85be, 0x550c_7dc3,
    0x72be_5d74, 0x80de_b1fe, 0x9bdc_06a7, 0xc19b_f174]
  const ROUND_2: seq<Word> := [
    0xe49b_69c1, 0xefbe_4786, 0x0fc1_9dc6, 0x240c_a1cc,
    0x2de9_2c6f, 0x4a74_84aa, 0x5cb0_a9dc, 0x76f9_88da]
  const ROUND_3: seq<Word> := [
    0x983e_5152, 0xa831_c66d, 0xb003_27c8, 0xbf59_7fc7,
    0xc6e0_0bf3, 0xd5a7_9147, 0x06ca_6351, 0x1429_2967]
  const ROUND_4: seq<Word> := [
    0x27b7_0a85, 0x2e1b_2138, 0x4d2c_6dfc, 0x5338_0d13,
    0x650a_7354, 0x766a_0abb, 0x81c2_c92e, 0x9272_2c85]
  const ROUND_5: seq<Word> := [
    0xa2bf_e8a1, 0xa81a_664b, 0xc24b_8b70, 0xc76c_51a3,
    0xd192_e819, 0xd699_0624, 0xf40e_3585, 0x106a_a070]
  const ROUND_6: seq<Word> := [
    0x19a4_c116, 0x1e37_6c08, 0x2748_774c, 0x34b0_bcb5,
    0x391c_0cb3, 0x4ed8_aa4a, 0x5b9c_ca4f, 0x682e_6ff3]
  const ROUND_7: seq<Word> := [
    0x748f_82ee, 0x78a5_636f, 0x84c8_7814, 0x8cc7_0208,
    0x90be_fffa, 0xa450_6ceb, 0xbef9_a3f7, 0xc671_78f2]
  const ROUND: seq<Word> := ROUND_0 + ROUND_1 + ROUND_2 + ROUND_3 + ROUND_4 + ROUND_5 + ROUND_6 + ROUND_7

  // Section 5.3.3.
  const INITIAL: seq<Word> := [
    0x6a09_e667, 0xbb67_ae85, 0x3c6e_f372, 0xa54f_f53a,
    0x510e_527f, 0x9b05_688c, 0x1f83_d9ab, 0x5be0_cd19
  ]

  // Addition modulo 2^32, one named step at a time.
  function Plus(x: Word, y: Word): Word { x + y }

  // Section 4.1.2.
  function Ch(x: Word, y: Word, z: Word): Word { (x & y) ^ (!x & z) }
  function Maj(x: Word, y: Word, z: Word): Word { (x & y) ^ (x & z) ^ (y & z) }
  function Rotr(x: Word, n: Word): Word
    requires n <= 32
  {
    (x >> n) | (x << (32 - n))
  }
  function BigSigma0(x: Word): Word { Rotr(x, 2) ^ Rotr(x, 13) ^ Rotr(x, 22) }
  function BigSigma1(x: Word): Word { Rotr(x, 6) ^ Rotr(x, 11) ^ Rotr(x, 25) }
  function SmallSigma0(x: Word): Word { Rotr(x, 7) ^ Rotr(x, 18) ^ (x >> 3) }
  function SmallSigma1(x: Word): Word { Rotr(x, 17) ^ Rotr(x, 19) ^ (x >> 10) }

  type Block = b: seq<byte> | |b| == 64 witness seq(64, _ => 0)

  function WordAt(block: Block, t: nat): Word
    requires t < 16
  {
    ((block[4 * t] as Word) << 24) | ((block[4 * t + 1] as Word) << 16)
      | ((block[4 * t + 2] as Word) << 8) | (block[4 * t + 3] as Word)
  }

  // Section 6.2.2, step 1: the message schedule, W_t from W_t-2, W_t-7, W_t-15 and W_t-16.
  function Extend(w2: Word, w7: Word, w15: Word, w16: Word): Word {
    Plus(Plus(Plus(w16, SmallSigma0(w15)), w7), SmallSigma1(w2))
  }

  function Schedule(block: Block, t: nat): Word {
    if t < 16 then WordAt(block, t)
    else Extend(Schedule(block, t - 2), Schedule(block, t - 7), Schedule(block, t - 15), Schedule(block, t - 16))
  }

  datatype Vars = Vars(a: Word, b: Word, c: Word, d: Word, e: Word, f: Word, g: Word, h: Word)

  // Section 6.2.2, step 3.
  function Round(v: Vars, k: Word, w: Word): Vars {
    var t1 := Plus(Plus(Plus(Plus(v.h, BigSigma1(v.e)), Ch(v.e, v.f, v.g)), k), w);
    var t2 := Plus(BigSigma0(v.a), Maj(v.a, v.b, v.c));
    Vars(Plus(t1, t2), v.a, v.b, v.c, Plus(v.d, t1), v.e, v.f, v.g)
  }

  function Rounds(v: Vars, block: Block, t: nat): Vars
    requires t <= 64
  {
    if t == 0 then v else Round(Rounds(v, block, t - 1), ROUND[t - 1], Schedule(block, t - 1))
  }

  type State = s: seq<Word> | |s| == 8 witness seq(8, _ => 0)

  function ToVars(s: State): Vars { Vars(s[0], s[1], s[2], s[3], s[4], s[5], s[6], s[7]) }

  // Section 6.2.2, step 4.
  function Compress(s: State, block: Block): State {
    var v := Rounds(ToVars(s), block, 64);
    [Plus(s[0], v.a), Plus(s[1], v.b), Plus(s[2], v.c), Plus(s[3], v.d),
     Plus(s[4], v.e), Plus(s[5], v.f), Plus(s[6], v.g), Plus(s[7], v.h)]
  }

  function CompressAll(s: State, blocks: seq<byte>): State
    requires |blocks| % 64 == 0
  {
    if blocks == [] then s
    else Compress(CompressAll(s, blocks[..|blocks| - 64]), blocks[|blocks| - 64..])
  }

  // The low `n` bytes of `value`, most significant first.
  function BigEndian(value: nat, n: nat): (bytes: seq<byte>)
    ensures |bytes| == n
  {
    if n == 0 then [] else BigEndian(value / 256, n - 1) + [value % 256]
  }

  function Zeros(n: nat): (z: seq<byte>)
    ensures |z| == n
  {
    seq(n, _ => 0)
  }

  // The fewest zero bytes after the marker that leave eight bytes of the last block:
  // the one solution below a whole block.
  function ZeroCount(length: nat): (z: nat)
    ensures (length + 1 + z) % 64 == 56 && z < 64
  {
    (119 - length % 64) % 64
  }

  // Section 5.1.1: a one bit, zero bits, the length in bits.
  function Pad(message: seq<byte>): (padded: seq<byte>)
    ensures |padded| % 64 == 0
  {
    var marked, field := message + [0x80] + Zeros(ZeroCount(|message|)), BigEndian(8 * |message|, 8);
    FillsBlock(marked, field);
    marked + field
  }

  lemma FillsBlock(marked: seq<byte>, field: seq<byte>)
    requires |marked| % 64 == 56 && |field| == 8
    ensures |marked + field| % 64 == 0
  {
  }

  function WordBytes(w: Word): (bytes: seq<byte>)
    ensures |bytes| == 4
  {
    [((w >> 24) as bv8) as byte, (((w >> 16) & 0xff) as bv8) as byte,
     (((w >> 8) & 0xff) as bv8) as byte, ((w & 0xff) as bv8) as byte]
  }

  function StateBytes(s: seq<Word>): (bytes: seq<byte>)
    ensures |bytes| == 4 * |s|
  {
    if s == [] then [] else StateBytes(s[..|s| - 1]) + WordBytes(s[|s| - 1])
  }

  function Hash(message: seq<byte>): (digest: seq<byte>)
    ensures |digest| == 32
  {
    StateBytes(CompressAll(INITIAL, Pad(message)))
  }
}
