// CRC-32 with the reflected polynomial 0xEDB88320, table step by table step.
module Crc32 {
  import opened Prelude

  function TableEntry(value: bv32, bits: nat): bv32 {
    if bits == 0 then value
    else
      var shifted := TableEntry(value, bits - 1);
      (shifted >> 1) ^ (0xedb8_8320 & (0 - (shifted & 1)))
  }

  function Register(data: seq<byte>): bv32 {
    if data == [] then 0xffff_ffff
    else
      var crc := Register(data[..|data| - 1]);
      Advance(crc, data[|data| - 1])
  }

  // One more byte.
  function Advance(crc: bv32, b: byte): bv32 { (crc >> 8) ^ TableEntry((crc ^ (b as bv32)) & 0xff, 8) }

  function Crc(data: seq<byte>): (crc: nat)
    ensures crc < 0x1_0000_0000
  {
    (!Register(data)) as nat
  }

  lemma RegisterNext(data: seq<byte>, b: byte)
    ensures Register(data + [b]) == Advance(Register(data), b)
  {
    hide Advance;
    assert (data + [b])[..|data|] == data;
  }

  lemma Entries()
    ensures TableEntry(0xce, 8) == 0x7cdc_efb7
    ensures TableEntry(0x7a, 8) == 0xb0d0_9822
    ensures TableEntry(0x01, 8) == 0x7707_3096
    ensures TableEntry(0x19, 8) == 0x646b_a8c0
    ensures TableEntry(0x69, 8) == 0x346e_d9fc
    ensures TableEntry(0xd5, 8) == 0xf6b9_265b
    ensures TableEntry(0xa9, 8) == 0xaf0a_1b4c
    ensures TableEntry(0x58, 8) == 0x65b0_d9c6
    ensures TableEntry(0x69, 8) == 0x346e_d9fc
  {
  }

  lemma Advances()
    ensures Advance(0xffff_ffff, 0x31) == 0x7c23_1048
    ensures Advance(0x7c23_1048, 0x32) == 0xb0ac_bb32
    ensures Advance(0xb0ac_bb32, 0x33) == 0x77b7_9c2d
    ensures Advance(0x77b7_9c2d, 0x34) == 0x641c_1f5c
    ensures Advance(0x641c_1f5c, 0x35) == 0x340a_c5e3
    ensures Advance(0x340a_c5e3, 0x36) == 0xf68d_2c9e
    ensures Advance(0xf68d_2c9e, 0x37) == 0xaffc_9660
    ensures Advance(0xaffc_9660, 0x38) == 0x651f_2550
    ensures Advance(0x651f_2550, 0x39) == 0x340b_c6d9
  {
    Entries();
    hide TableEntry;
  }

  // The check value every CRC-32 of this kind has, on the nine bytes "123456789".
  lemma CheckValue()
    ensures Crc([0x31, 0x32, 0x33, 0x34, 0x35, 0x36, 0x37, 0x38, 0x39]) == 0xcbf4_3926
  {
    hide Register, Advance;
    NothingRegistered();
    Advances();
    RegisterNext([], 0x31);
    assert [] + [0x31] == [0x31];
    RegisterNext([0x31], 0x32);
    assert [0x31] + [0x32] == [0x31, 0x32];
    RegisterNext([0x31, 0x32], 0x33);
    assert [0x31, 0x32] + [0x33] == [0x31, 0x32, 0x33];
    RegisterNext([0x31, 0x32, 0x33], 0x34);
    assert [0x31, 0x32, 0x33] + [0x34] == [0x31, 0x32, 0x33, 0x34];
    RegisterNext([0x31, 0x32, 0x33, 0x34], 0x35);
    assert [0x31, 0x32, 0x33, 0x34] + [0x35] == [0x31, 0x32, 0x33, 0x34, 0x35];
    RegisterNext([0x31, 0x32, 0x33, 0x34, 0x35], 0x36);
    assert [0x31, 0x32, 0x33, 0x34, 0x35] + [0x36] == [0x31, 0x32, 0x33, 0x34, 0x35, 0x36];
    RegisterNext([0x31, 0x32, 0x33, 0x34, 0x35, 0x36], 0x37);
    assert [0x31, 0x32, 0x33, 0x34, 0x35, 0x36] + [0x37] == [0x31, 0x32, 0x33, 0x34, 0x35, 0x36, 0x37];
    RegisterNext([0x31, 0x32, 0x33, 0x34, 0x35, 0x36, 0x37], 0x38);
    assert [0x31, 0x32, 0x33, 0x34, 0x35, 0x36, 0x37] + [0x38] == [0x31, 0x32, 0x33, 0x34, 0x35, 0x36, 0x37, 0x38];
    RegisterNext([0x31, 0x32, 0x33, 0x34, 0x35, 0x36, 0x37, 0x38], 0x39);
    assert [0x31, 0x32, 0x33, 0x34, 0x35, 0x36, 0x37, 0x38] + [0x39]
        == [0x31, 0x32, 0x33, 0x34, 0x35, 0x36, 0x37, 0x38, 0x39];
    Complemented([0x31, 0x32, 0x33, 0x34, 0x35, 0x36, 0x37, 0x38, 0x39]);
  }

  lemma Complemented(data: seq<byte>)
    ensures Register(data) == 0x340b_c6d9 ==> Crc(data) == 0xcbf4_3926
  {
    hide Register;
  }

  lemma NothingRegistered()
    ensures Register([]) == 0xffff_ffff
  {
  }
}
