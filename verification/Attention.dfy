// Grouped-query attention over a batch, in exact arithmetic: one windowed form
// with an additive mask, and per-sentence forms over a padded or a packed batch.
module Attention {
  import opened Prelude
  import opened Batch

  type Vec = seq<real>

  // What attention makes of one token: per head, its components.
  type Heads = seq<Vec>

  // A token's query, key and value projections.
  datatype Qkv = Qkv(q: Vec, k: Vec, v: Vec)

  type Exponential = f: real -> real | forall x: real :: f(x) > 0.0 witness (x => 1.0)

  // A score, or minus infinity.
  datatype Score = Finite(value: real) | Masked

  // One encoder layer. `project` is everything per token before attention; `score`
  // compares a query and a key, each with its place, norms, rotation and scale
  // included; `value` is one component of a head's value; `merge` is everything per
  // token after attention.
  datatype Layer = Layer(
    heads: nat, dim: nat, causal: bool, rope: bool,
    project: Vec -> Qkv,
    score: (nat, Vec, nat, Vec, nat) -> real,
    value: (nat, nat, Vec) -> real,
    merge: (Vec, Heads) -> Vec)

  datatype AttentionError = NoPositions | BadLength

  // ---- Softmax ----

  function Highest(row: seq<Score>): Score {
    if row == [] then Masked
    else
      var rest := Highest(row[..|row| - 1]);
      match Last(row)
      case Masked => rest
      case Finite(x) => if rest.Masked? || rest.value < x then Last(row) else rest
  }

  function Weight(exp: Exponential, s: Score, top: real): (w: real)
    ensures w >= 0.0 && (w == 0.0 <==> s.Masked?)
  {
    match s case Masked => 0.0 case Finite(x) => exp(x - top)
  }

  function Weights(exp: Exponential, row: seq<Score>, top: real): (ws: seq<real>)
    ensures |ws| == |row| && forall k | 0 <= k < |row| :: ws[k] == Weight(exp, row[k], top)
  {
    seq(|row|, k requires 0 <= k < |row| => Weight(exp, row[k], top))
  }

  function Sum(ws: seq<real>): real {
    if ws == [] then 0.0 else Sum(ws[..|ws| - 1]) + Last(ws)
  }

  ghost predicate SomeFinite(row: seq<Score>) { exists k :: 0 <= k < |row| && row[k].Finite? }

  lemma {:induction false} HighestFinite(row: seq<Score>)
    ensures Highest(row).Finite? <==> SomeFinite(row)
  {
    if row != [] {
      HighestFinite(row[..|row| - 1]);
      if SomeFinite(row[..|row| - 1]) {
        var k :| 0 <= k < |row| - 1 && row[..|row| - 1][k].Finite?;
        assert row[k].Finite?;
      }
    }
  }

  lemma {:induction false} PositiveSum(exp: Exponential, row: seq<Score>, top: real)
    ensures Sum(Weights(exp, row, top)) >= 0.0
    ensures SomeFinite(row) ==> Sum(Weights(exp, row, top)) > 0.0
  {
    if row != [] {
      var front := row[..|row| - 1];
      PositiveSum(exp, front, top);
      assert Weights(exp, row, top)[..|row| - 1] == Weights(exp, front, top);
      if SomeFinite(row) && Last(row).Masked? {
        var k :| 0 <= k < |row| && row[k].Finite?;
        assert front[k].Finite?;
      }
    }
  }

  function Top(row: seq<Score>): real
    requires SomeFinite(row)
  {
    HighestFinite(row);
    Highest(row).value
  }

  function Total(exp: Exponential, row: seq<Score>): (t: real)
    requires SomeFinite(row)
    ensures t > 0.0
  {
    PositiveSum(exp, row, Top(row));
    Sum(Weights(exp, row, Top(row)))
  }

  function Share(w: real, total: real): (p: real)
    requires total > 0.0
    ensures w == 0.0 ==> p == 0.0
  {
    w / total
  }

  // The row maximum is subtracted before exponentiating.
  function Softmax(exp: Exponential, row: seq<Score>): (ps: seq<real>)
    requires SomeFinite(row)
    ensures |ps| == |row|
    ensures forall k | 0 <= k < |row| :: ps[k] == Share(Weight(exp, row[k], Top(row)), Total(exp, row))
  {
    seq(|row|, k requires 0 <= k < |row| => Share(Weight(exp, row[k], Top(row)), Total(exp, row)))
  }

  function Dot(ps: seq<real>, vs: seq<real>): real
    requires |ps| == |vs|
  {
    if ps == [] then 0.0 else Dot(ps[..|ps| - 1], vs[..|vs| - 1]) + Last(ps) * Last(vs)
  }

  // Masked keys after the real ones change nothing.
  lemma {:induction false} TrailingMasked(exp: Exponential, row: seq<Score>, n: nat, top: real)
    requires n <= |row| && forall k | n <= k < |row| :: row[k].Masked?
    ensures Highest(row) == Highest(row[..n])
    ensures Sum(Weights(exp, row, top)) == Sum(Weights(exp, row[..n], top))
    decreases |row|
  {
    if n < |row| {
      var front := row[..|row| - 1];
      TrailingMasked(exp, front, n, top);
      assert front[..n] == row[..n];
      assert Weights(exp, row, top)[..|row| - 1] == Weights(exp, front, top);
    } else {
      assert row[..n] == row;
    }
  }

  lemma SoftmaxTrailing(exp: Exponential, row: seq<Score>, n: nat)
    requires n <= |row| && SomeFinite(row[..n]) && forall k | n <= k < |row| :: row[k].Masked?
    ensures SomeFinite(row)
    ensures Softmax(exp, row)[..n] == Softmax(exp, row[..n])
    ensures forall k | n <= k < |row| :: Softmax(exp, row)[k] == 0.0
  {
    var k0 :| 0 <= k0 < n && row[..n][k0].Finite?;
    assert row[k0].Finite?;
    TrailingMasked(exp, row, n, Top(row[..n]));
    assert Top(row) == Top(row[..n]) && Total(exp, row) == Total(exp, row[..n]);
    hide Softmax, Top, Total, Share, Weight, SomeFinite;
  }

  lemma {:induction false} DotTrailing(ps: seq<real>, vs: seq<real>, n: nat)
    requires n <= |ps| == |vs| && forall k | n <= k < |ps| :: ps[k] == 0.0
    ensures Dot(ps, vs) == Dot(ps[..n], vs[..n])
    decreases |ps|
  {
    if n < |ps| {
      DotTrailing(ps[..|ps| - 1], vs[..|vs| - 1], n);
      assert ps[..|ps| - 1][..n] == ps[..n] && vs[..|vs| - 1][..n] == vs[..n];
    } else {
      assert ps[..n] == ps && vs[..n] == vs;
    }
  }

  // ---- One sentence on its own ----

  // A token with the place its rotation was given; without rotation, no place.
  datatype Placed = Placed(x: Qkv, at: nat)

  function InPlace(layer: Layer, xs: seq<Qkv>): (ps: seq<Placed>)
    ensures |ps| == |xs| && forall s | 0 <= s < |xs| :: ps[s] == Placed(xs[s], if layer.rope then s else 0)
  {
    seq(|xs|, s requires 0 <= s < |xs| => Placed(xs[s], if layer.rope then s else 0))
  }

  function Compare(layer: Layer, h: nat, x: Placed, q: nat, y: Placed, k: nat): Score {
    if layer.causal && k > q then Masked else Finite(layer.score(h, x.x.q, x.at, y.x.k, y.at))
  }

  function Scores(layer: Layer, xs: seq<Placed>, h: nat, q: nat): (row: seq<Score>)
    requires q < |xs|
    ensures |row| == |xs| && forall k | 0 <= k < |xs| :: row[k] == Compare(layer, h, xs[q], q, xs[k], k)
    ensures SomeFinite(row)
  {
    var row := seq(|xs|, k requires 0 <= k < |xs| => Compare(layer, h, xs[q], q, xs[k], k));
    assert row[0].Finite?;
    row
  }

  function Values(layer: Layer, xs: seq<Placed>, h: nat, c: nat): (vs: seq<real>)
    ensures |vs| == |xs| && forall k | 0 <= k < |xs| :: vs[k] == layer.value(h, c, xs[k].x.v)
  {
    seq(|xs|, k requires 0 <= k < |xs| => layer.value(h, c, xs[k].x.v))
  }

  function AttendHead(exp: Exponential, layer: Layer, xs: seq<Placed>, row: seq<Score>, h: nat): (v: Vec)
    requires |row| == |xs| && SomeFinite(row)
    ensures |v| == layer.dim && forall c | 0 <= c < layer.dim :: v[c] == Dot(Softmax(exp, row), Values(layer, xs, h, c))
  {
    seq(layer.dim, c requires 0 <= c < layer.dim => Dot(Softmax(exp, row), Values(layer, xs, h, c)))
  }

  function AttendToken(exp: Exponential, layer: Layer, xs: seq<Placed>, q: nat): (hs: Heads)
    requires q < |xs|
    ensures |hs| == layer.heads
    ensures forall h | 0 <= h < layer.heads :: hs[h] == AttendHead(exp, layer, xs, Scores(layer, xs, h, q), h)
  {
    seq(layer.heads, h requires 0 <= h < layer.heads => AttendHead(exp, layer, xs, Scores(layer, xs, h, q), h))
  }

  function Attend(exp: Exponential, layer: Layer, xs: seq<Placed>): (out: seq<Heads>)
    ensures |out| == |xs| && forall q | 0 <= q < |xs| :: out[q] == AttendToken(exp, layer, xs, q)
  {
    seq(|xs|, q requires 0 <= q < |xs| => AttendToken(exp, layer, xs, q))
  }

  // ---- One token of a window with an additive mask ----

  function Masking(score: Score, entry: MaskEntry): Score { if entry == NegInf then Masked else score }

  function WindowScores(layer: Layer, xs: seq<Placed>, mask: seq<MaskEntry>, h: nat, q: nat): (row: seq<Score>)
    requires q < |xs| == |mask|
    ensures |row| == |xs|
    ensures forall k | 0 <= k < |xs| :: row[k] == Masking(Compare(layer, h, xs[q], q, xs[k], k), mask[k])
  {
    seq(|xs|, k requires 0 <= k < |xs| => Masking(Compare(layer, h, xs[q], q, xs[k], k), mask[k]))
  }

  lemma FirstKeyOpen(layer: Layer, xs: seq<Placed>, mask: seq<MaskEntry>, h: nat, q: nat)
    requires q < |xs| == |mask| && mask[0] == Zero
    ensures SomeFinite(WindowScores(layer, xs, mask, h, q))
  {
    assert WindowScores(layer, xs, mask, h, q)[0].Finite?;
  }

  function WindowToken(exp: Exponential, layer: Layer, xs: seq<Placed>, mask: seq<MaskEntry>, q: nat): (hs: Heads)
    requires q < |xs| == |mask| && mask[0] == Zero
    ensures |hs| == layer.heads
    ensures forall h | 0 <= h < layer.heads ::
      SomeFinite(WindowScores(layer, xs, mask, h, q))
      && hs[h] == AttendHead(exp, layer, xs, WindowScores(layer, xs, mask, h, q), h)
  {
    assert forall h: nat :: SomeFinite(WindowScores(layer, xs, mask, h, q)) by {
      forall h: nat ensures SomeFinite(WindowScores(layer, xs, mask, h, q)) { FirstKeyOpen(layer, xs, mask, h, q); }
    }
    seq(layer.heads,
        h requires 0 <= h < layer.heads => AttendHead(exp, layer, xs, WindowScores(layer, xs, mask, h, q), h))
  }

  // The mask shows exactly the first n keys, or later keys are out of reach anyway.
  ghost predicate Hides(layer: Layer, mask: seq<MaskEntry>, n: nat) {
    && n <= |mask| && (forall k | 0 <= k < n :: mask[k] == Zero)
    && (layer.causal || forall k | n <= k < |mask| :: mask[k] == NegInf)
  }

  lemma HeadTrailing(exp: Exponential, layer: Layer, xs: seq<Placed>, row: seq<Score>, n: nat, h: nat)
    requires |row| == |xs| && n <= |xs| && SomeFinite(row[..n]) && forall k | n <= k < |row| :: row[k].Masked?
    ensures SomeFinite(row) && AttendHead(exp, layer, xs, row, h) == AttendHead(exp, layer, xs[..n], row[..n], h)
  {
    hide Softmax, Dot, Values, AttendHead;
    SoftmaxTrailing(exp, row, n);
    forall c | 0 <= c < layer.dim
      ensures AttendHead(exp, layer, xs, row, h)[c] == AttendHead(exp, layer, xs[..n], row[..n], h)[c]
    {
      DotTrailing(Softmax(exp, row), Values(layer, xs, h, c), n);
      assert Values(layer, xs, h, c)[..n] == Values(layer, xs[..n], h, c);
    }
  }

  // A real token of a masked window gets what its sentence alone gives it.
  lemma WindowIsAlone(exp: Exponential, layer: Layer, xs: seq<Placed>, mask: seq<MaskEntry>, n: nat, q: nat)
    requires q < n <= |xs| == |mask| && Hides(layer, mask, n)
    ensures WindowToken(exp, layer, xs, mask, q) == AttendToken(exp, layer, xs[..n], q)
  {
    var window, alone := WindowToken(exp, layer, xs, mask, q), AttendToken(exp, layer, xs[..n], q);
    forall h | 0 <= h < layer.heads ensures window[h] == alone[h] {
      var row := WindowScores(layer, xs, mask, h, q);
      assert row[..n] == Scores(layer, xs[..n], h, q);
      HeadTrailing(exp, layer, xs, row, n, h);
    }
  }
}
