// Little-endian integers in byte sequences and byte buffers, and the page CRC.
module Bytes {
  import opened Prelude

  // The low `n` bytes of `value`, least significant first.
  function Le(value: nat, n: nat): (bytes: seq<byte>)
    ensures |bytes| == n
  {
    if n == 0 then [] else [value % 256] + Le(value / 256, n - 1)
  }

  function Unle(bytes: seq<byte>): (value: nat)
    ensures value < Pow256(|bytes|)
  {
    if bytes == [] then 0 else bytes[0] + 256 * Unle(bytes[1..])
  }

  lemma {:induction false} UnleLe(value: nat, n: nat)
    requires value < Pow256(n)
    ensures Unle(Le(value, n)) == value
  {
    if n > 0 { UnleLe(value / 256, n - 1); }
  }

  lemma {:induction false} LeUnle(bytes: seq<byte>)
    ensures Le(Unle(bytes), |bytes|) == bytes
  {
    if bytes != [] {
      LeUnle(bytes[1..]);
      LowByte(bytes[0], Unle(bytes[1..]));
    }
  }

  lemma LowByte(low: byte, rest: nat)
    ensures (low + 256 * rest) % 256 == low && (low + 256 * rest) / 256 == rest
  {
  }

  lemma Widths()
    ensures Pow256(4) == 0x1_0000_0000 && Pow256(8) == 0x1_0000_0000_0000_0000
  {
    assert Pow256(4) == 0x1_0000_0000;
  }

  // `value` without its low `n` bytes.
  function Shift(value: nat, n: nat): nat {
    if n == 0 then value else Shift(value / 256, n - 1)
  }

  lemma {:induction false} LeSplit(value: nat, n: nat)
    ensures Le(value, n + 1) == Le(value, n) + [Shift(value, n) % 256]
    ensures Shift(value, n + 1) == Shift(value, n) / 256
  {
    if n > 0 { LeSplit(value / 256, n - 1); }
  }

  // Byte i holds the digit of weight 256 to the i.
  lemma {:induction false} LeDigits(value: nat, n: nat, i: nat)
    requires i < n
    ensures Le(value, n)[i] == Shift(value, i) % 256
    ensures Shift(value, i) * Pow256(i) <= value < (Shift(value, i) + 1) * Pow256(i)
  {
    if i > 0 {
      LeDigits(value / 256, n - 1, i - 1);
      ShiftBounds(value, Shift(value, i), Pow256(i - 1));
    }
  }

  lemma ShiftBounds(value: nat, s: nat, p: nat)
    requires s * p <= value / 256 < (s + 1) * p
    ensures s * (256 * p) <= value < (s + 1) * (256 * p)
  {
    assert s * (256 * p) == 256 * (s * p) && (s + 1) * (256 * p) == 256 * ((s + 1) * p);
  }

  // The integer stored in the `n` bytes at `at`.
  function LeAt(bytes: seq<byte>, at: nat, n: nat): (value: nat)
    requires at + n <= |bytes|
    ensures value < Pow256(n)
  {
    Unle(bytes[at..at + n])
  }

  // Bytes are taken from the most significant down, as the C++ loop does.
  method ReadLe(bytes: seq<byte>, at: nat, n: nat) returns (value: nat)
    requires at + n <= |bytes|
    ensures value == LeAt(bytes, at, n)
  {
    value := 0;
    var i: nat := n;
    while i > 0
      invariant i <= n && value == Unle(bytes[at + i..at + n])
    {
      i := i - 1;
      value := value * 256 + bytes[at + i];
      assert bytes[at + i..at + n][1..] == bytes[at + i + 1..at + n];
    }
  }

  // `s` with the bytes at `at` overwritten.
  function Splice(s: seq<byte>, at: nat, bytes: seq<byte>): (out: seq<byte>)
    requires at + |bytes| <= |s|
    ensures |out| == |s|
  {
    s[..at] + bytes + s[at + |bytes|..]
  }

  lemma SpliceNext(s: seq<byte>, at: nat, a: seq<byte>, b: seq<byte>)
    requires at + |a| + |b| <= |s|
    ensures Splice(Splice(s, at, a), at + |a|, b) == Splice(s, at, a + b)
  {
  }

  lemma SpliceOver(s: seq<byte>, at: nat, a: seq<byte>, was: seq<byte>, b: seq<byte>, c: seq<byte>)
    requires at + |a| + |was| + |c| <= |s| && |was| == |b|
    ensures Splice(Splice(s, at, a + was + c), at + |a|, b) == Splice(s, at, a + b + c)
  {
  }

  lemma SpliceOutside(s: seq<byte>, at: nat, bytes: seq<byte>, lo: nat, hi: nat)
    requires at + |bytes| <= |s| && lo <= hi <= |s|
    requires hi <= at || at + |bytes| <= lo
    ensures Splice(s, at, bytes)[lo..hi] == s[lo..hi]
  {
  }

  lemma SpliceOne(s: seq<byte>, at: nat, x: byte)
    requires at < |s|
    ensures s[at := x] == Splice(s, at, [x])
  {
  }

  lemma NothingSpliced(s: seq<byte>, at: nat, value: nat)
    requires at <= |s|
    ensures Splice(s, at, Le(value, 0)) == s && Shift(value, 0) == value
  {
  }

  method WriteBytes(p: array<byte>, at: nat, bytes: seq<byte>)
    requires at + |bytes| <= p.Length
    modifies p
    ensures p[..] == Splice(old(p[..]), at, bytes)
  {
    forall i | 0 <= i < |bytes| { p[at + i] := bytes[i]; }
  }

  // Least significant byte first, shifting the value right after each.
  method WriteLe(p: array<byte>, at: nat, value: nat, n: nat)
    requires at + n <= p.Length
    modifies p
    ensures p[..] == Splice(old(p[..]), at, Le(value, n))
  {
    hide Le, Splice, Shift;
    var rest := value;
    ghost var before := p[..];
    NothingSpliced(before, at, value);
    for i := 0 to n
      invariant rest == Shift(value, i)
      invariant p[..] == Splice(before, at, Le(value, i))
    {
      LeSplit(value, i);
      ghost var was := p[..];
      SpliceOne(was, at + i, rest % 256);
      SpliceNext(before, at, Le(value, i), [rest % 256]);
      p[at + i] := rest % 256;
      assert p[..] == was[at + i := rest % 256];
      rest := rest / 256;
    }
  }
}
