// L2 normalization, over any square root and any least divisor: embeddings of length one
// in the direction of what was pooled, whose dot products are similarities.
module UnitLength {
  import opened Prelude
  import opened Attention
  import opened Pooling
  import opened Encoder
  import opened Embedder

  // A square root of every number that has one.
  ghost predicate IsRoot(root: real -> real) {
    forall x | x >= 0.0 :: root(x) >= 0.0 && root(x) * root(x) == x
  }

  type Positive = r: real | r > 0.0 witness 1.0

  function SquareSum(v: Vec): (s: real)
    ensures s >= 0.0
  {
    if v == [] then 0.0 else SquareSum(v[..|v| - 1]) + Last(v) * Last(v)
  }

  // What a row is divided by: its length, but never less than `floor`.
  function Divisor(root: real -> real, floor: Positive, v: Vec): (d: real)
    ensures d > 0.0
  {
    if root(SquareSum(v)) < floor then floor else root(SquareSum(v))
  }

  function Rescaled(root: real -> real, floor: Positive, v: Vec): (u: Vec)
    ensures |u| == |v|
  {
    var d := Divisor(root, floor, v);
    seq(|v|, c requires 0 <= c < |v| => v[c] / d)
  }

  lemma {:induction false} SquaresScale(u: Vec, v: Vec, d: real, square: real)
    requires |u| == |v| && square == d * d && forall c | 0 <= c < |v| :: u[c] * d == v[c]
    ensures SquareSum(u) * square == SquareSum(v)
  {
    if v != [] {
      var k := |v| - 1;
      SquaresScale(u[..k], v[..k], d, square);
      SquareOf(u[k], v[k], d);
      Distributes(SquareSum(u[..k]), u[k] * u[k], square);
    }
  }

  lemma SquareOf(a: real, b: real, d: real)
    requires a * d == b
    ensures a * a * (d * d) == b * b
  {
    assert b * b == (a * d) * b == (a * d) * (a * d);
  }

  lemma Distributes(a: real, b: real, d: real)
    ensures (a + b) * d == a * d + b * d
  {
  }

  lemma Divided(a: real, d: real)
    requires d != 0.0
    ensures a / d * d == a
  {
  }

  // Where x * p == s and p > 0: x is 1 if s is p, and at most 1 if s is at most p.
  lemma Ratio(x: real, p: real, s: real)
    requires p > 0.0 && x * p == s
    ensures s == p ==> x == 1.0
    ensures s <= p ==> x <= 1.0
  {
    Distributes(x, -1.0, p);
    if x > 1.0 { Multiplied(x - 1.0, p); }
    if x < 1.0 { Multiplied(1.0 - x, p); }
  }

  lemma Multiplied(a: real, b: real)
    requires a > 0.0 && b > 0.0
    ensures a * b > 0.0
  {
  }

  lemma Squared(a: real, square: real)
    requires a > 0.0 && square == a * a
    ensures square > 0.0
  {
    assert square / a == a;
  }

  lemma Smaller(a: real, b: real)
    requires 0.0 <= a < b
    ensures a * a <= b * b
  {
    Distributes(b, -a, b + a);
    assert (b - a) * (b + a) >= 0.0;
  }

  lemma DivisorSquare(root: real -> real, floor: Positive, v: Vec)
    requires IsRoot(root)
    ensures var (d, s) := (Divisor(root, floor, v), SquareSum(v));
      if root(s) >= floor then d * d == s else d * d >= s
  {
    hide SquareSum;
    var r := root(SquareSum(v));
    assert r >= 0.0 && r * r == SquareSum(v);
    if r < floor { Smaller(r, floor); }
  }

  // In the direction of v, and of length one unless v is shorter than the least divisor.
  ghost predicate Points(root: real -> real, floor: Positive, v: Vec, u: Vec) {
    && |u| == |v| && (forall c | 0 <= c < |v| :: u[c] * Divisor(root, floor, v) == v[c])
    && SquareSum(u) <= 1.0 && (root(SquareSum(v)) >= floor ==> SquareSum(u) == 1.0)
  }

  lemma RescaledUnit(root: real -> real, floor: Positive, v: Vec)
    requires IsRoot(root)
    ensures Points(root, floor, v, Rescaled(root, floor, v))
  {
    hide SquareSum, Divisor, IsRoot;
    var u, d, s := Rescaled(root, floor, v), Divisor(root, floor, v), SquareSum(v);
    forall c | 0 <= c < |v| ensures u[c] * d == v[c] { Divided(v[c], d); }
    var square := d * d;
    SquaresScale(u, v, d, square);
    DivisorSquare(root, floor, v);
    Squared(d, square);
    Ratio(SquareSum(u), square, s);
  }

  // ---- Embeddings ----

  function Unit(root: real -> real, floor: Positive): Vec -> Vec { v => Rescaled(root, floor, v) }

  // What a text is given when normalization is asked for, and when it is not.
  lemma EmbeddingUnit(exp: Exponential, arch: Arch, config: Config, ids: seq<int>, root: real -> real, floor: Positive)
    requires ids != [] && IsRoot(root)
    ensures var pooled := Pool(config.pooling, Encode(exp, arch, ids), arch.width);
      && Alone(exp, arch, config.(finish := None), ids) == pooled
      && Points(root, floor, pooled, Alone(exp, arch, config.(finish := Some(Unit(root, floor))), ids))
  {
    hide Pool, Encode, Points, Rescaled;
    RescaledUnit(root, floor, Pool(config.pooling, Encode(exp, arch, ids), arch.width));
  }

  // Twice a dot product is at most the two square sums.
  lemma {:induction false} DotBelow(u: Vec, v: Vec)
    requires |u| == |v|
    ensures 2.0 * Dot(u, v) <= SquareSum(u) + SquareSum(v)
    ensures -2.0 * Dot(u, v) <= SquareSum(u) + SquareSum(v)
  {
    if u != [] {
      var k := |u| - 1;
      var p, a, b := LastTerms(u, v);
      hide Dot, SquareSum;
      DotBelow(u[..k], v[..k]);
    }
  }

  // What the last components add to each sum.
  lemma LastTerms(u: Vec, v: Vec) returns (p: real, a: real, b: real)
    requires |u| == |v| > 0
    ensures Dot(u, v) == Dot(u[..|u| - 1], v[..|v| - 1]) + p
    ensures SquareSum(u) == SquareSum(u[..|u| - 1]) + a && SquareSum(v) == SquareSum(v[..|v| - 1]) + b
    ensures 2.0 * p <= a + b && -2.0 * p <= a + b
  {
    hide Dot, SquareSum;
    p, a, b := Products(Last(u), Last(v));
    DotNext(u, v, p);
    SquareNext(u, a);
    SquareNext(v, b);
  }

  lemma Products(a: real, b: real) returns (p: real, x: real, y: real)
    ensures p == a * b && x == a * a && y == b * b
    ensures 2.0 * p <= x + y && -2.0 * p <= x + y
  {
    p, x, y := a * b, a * a, b * b;
    TwiceBelow(a, b);
  }

  lemma TwiceBelow(a: real, b: real)
    ensures 2.0 * (a * b) <= a * a + b * b && -2.0 * (a * b) <= a * a + b * b
  {
    assert (a - b) * (a - b) == a * a - 2.0 * (a * b) + b * b;
    assert (a + b) * (a + b) == a * a + 2.0 * (a * b) + b * b;
    NotNegative(a - b);
    NotNegative(a + b);
  }

  lemma NotNegative(a: real)
    ensures a * a >= 0.0
  {
  }

  lemma DotNext(u: Vec, v: Vec, p: real)
    requires |u| == |v| > 0 && p == Last(u) * Last(v)
    ensures Dot(u, v) == Dot(u[..|u| - 1], v[..|v| - 1]) + p
  {
  }

  lemma SquareNext(v: Vec, a: real)
    requires v != [] && a == Last(v) * Last(v)
    ensures SquareSum(v) == SquareSum(v[..|v| - 1]) + a
  {
  }

  // The dot product of two normalized embeddings is a similarity: never beyond one either way.
  lemma Similarity(exp: Exponential, arch: Arch, config: Config, a: seq<int>, b: seq<int>, root: real -> real,
                   floor: Positive)
    requires a != [] && b != [] && IsRoot(root) && config.finish == Some(Unit(root, floor))
    requires |Alone(exp, arch, config, a)| == |Alone(exp, arch, config, b)|
    ensures -1.0 <= Dot(Alone(exp, arch, config, a), Alone(exp, arch, config, b)) <= 1.0
  {
    hide Alone, SquareSum, Dot;
    EmbeddingUnit(exp, arch, config, a, root, floor);
    EmbeddingUnit(exp, arch, config, b, root, floor);
    assert config.(finish := Some(Unit(root, floor))) == config;
    DotBelow(Alone(exp, arch, config, a), Alone(exp, arch, config, b));
  }
}
