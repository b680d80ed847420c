// Small types every other module shares.
module Prelude {

  datatype Option<+T> = None | Some(value: T)

  datatype Result<+T, +E> = Ok(value: T) | Err(error: E)

  type byte = b: int | 0 <= b < 256

  const INT_MAX: nat := 0x7fff_ffff
  const SIZE_MAX: nat := 0xffff_ffff_ffff_ffff

  function Min(a: int, b: int): int { if a < b then a else b }

  function Max(a: int, b: int): int { if a < b then b else a }

  function Last<T>(s: seq<T>): T
    requires s != []
  {
    s[|s| - 1]
  }

  function Pow256(n: nat): nat { if n == 0 then 1 else 256 * Pow256(n - 1) }

  lemma SliceOfSlice<T>(s: seq<T>, a: nat, b: nat, lo: nat, hi: nat)
    requires a <= b <= |s| && lo <= hi <= b - a
    ensures s[a..b][lo..hi] == s[a + lo..a + hi]
  {
    forall i | 0 <= i < hi - lo
      ensures s[a..b][lo..hi][i] == s[a + lo..a + hi][i]
    {
    }
  }

  lemma MulLe(a: nat, b: nat, m: nat)
    requires a <= b
    ensures a * m <= b * m
  {
  }

  // What division by m leaves, and where the multiples of m lie around n.
  lemma Multiples(n: nat, m: nat, q: nat, index: nat)
    requires m > 0 && n > 0 && q == (n - 1) / m
    ensures index <= q <==> index * m < n
    ensures (index + 1) * m == index * m + m
    ensures index + 1 <= q ==> index * m + m < n
    ensures index == q ==> index * m + m >= n
  {
    Quotient(n - 1, m);
    NextMultiple(q, m);
    NextMultiple(index, m);
    if index <= q { MulLe(index, q, m); } else { MulLe(q + 1, index, m); }
    if index + 1 <= q { MulLe(index + 1, q, m); }
  }

  lemma Quotient(n: nat, m: nat)
    requires m > 0
    ensures n / m * m <= n < n / m * m + m
  {
  }

  lemma NextMultiple(a: nat, m: nat)
    ensures (a + 1) * m == a * m + m
  {
  }

  lemma MulGap(a: nat, b: nat, m: nat)
    requires a < b
    ensures a * m + m <= b * m && m * a + m <= m * b
  {
    MulLe(a + 1, b, m);
    assert (a + 1) * m == a * m + m;
  }
}
