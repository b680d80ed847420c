// Pools: one vector per sentence, from a padded grid or a packed stream.
module Pooling {
  import opened Prelude
  import opened Batch
  import opened Attention
  import opened GqaAttention

  datatype PoolType = Mean | Cls | LastToken

  datatype PoolError = SliceOutOfRange | NoMask | NoIndices

  // Present only for a padded batch.
  datatype PoolInputs =
    PoolInputs(validMask: Option<seq<real>>, meanScale: Option<seq<real>>, lastIndices: Option<seq<nat>>)

  function Component(x: Vec, c: nat): real { if c < |x| then x[c] else 0.0 }

  function ColumnSum(xs: seq<Vec>, c: nat): real {
    if xs == [] then 0.0 else ColumnSum(xs[..|xs| - 1], c) + Component(Last(xs), c)
  }

  // The mean, the first or the final token of a sentence on its own.
  function Pool(pool: PoolType, xs: seq<Vec>, width: nat): (v: Vec)
    requires xs != []
  {
    match pool
    case Mean => seq(width, c requires 0 <= c < width => ColumnSum(xs, c) / |xs| as real)
    case Cls => xs[0]
    case LastToken => Last(xs)
  }

  // ---- A padded grid ----

  function MaskedSum(xs: seq<Vec>, flags: seq<real>, c: nat): real
    requires |xs| == |flags|
  {
    if xs == [] then 0.0
    else MaskedSum(xs[..|xs| - 1], flags[..|xs| - 1], c) + Component(Last(xs), c) * Last(flags)
  }

  lemma {:induction false} MaskedIsSum(xs: seq<Vec>, flags: seq<real>, n: nat, c: nat)
    requires n <= |xs| == |flags|
    requires forall s | 0 <= s < |flags| :: flags[s] == if s < n then 1.0 else 0.0
    ensures MaskedSum(xs, flags, c) == ColumnSum(xs[..n], c)
    decreases |xs|
  {
    if xs != [] {
      var k := |xs| - 1;
      if n == |xs| {
        MaskedIsSum(xs[..k], flags[..k], k, c);
        assert xs[..n] == xs && xs[..k][..k] == xs[..k];
      } else {
        MaskedIsSum(xs[..k], flags[..k], n, c);
        assert xs[..k][..n] == xs[..n];
      }
    }
  }

  function WindowOf<T>(x: seq<T>, S: nat, b: nat): (w: seq<T>)
    requires Cell(S, b, 0) + S <= |x|
    ensures |w| == S && forall s | 0 <= s < S :: w[s] == x[Cell(S, b, 0) + s]
  {
    x[Cell(S, b, 0)..Cell(S, b, 0) + S]
  }

  function MaskedMean(x: seq<Vec>, S: nat, b: nat, flags: seq<real>, scale: real, width: nat): Vec
    requires Cell(S, b, 0) + S <= |x| && |flags| == |x|
  {
    seq(width, c requires 0 <= c < width => MaskedSum(WindowOf(x, S, b), WindowOf(flags, S, b), c) * scale)
  }

  lemma ScaleIsDivide(a: real, n: nat)
    requires n > 0
    ensures a * (1.0 / n as real) == a / n as real
  {
  }

  lemma MaskedMeanIsMean(x: seq<Vec>, S: nat, b: nat, flags: seq<real>, n: nat, width: nat)
    requires Cell(S, b, 0) + S <= |x| == |flags| && 0 < n <= S
    requires forall s | 0 <= s < S :: WindowOf(flags, S, b)[s] == if s < n then 1.0 else 0.0
    ensures MaskedMean(x, S, b, flags, 1.0 / n as real, width) == Pool(Mean, WindowOf(x, S, b)[..n], width)
  {
    hide MaskedSum, ColumnSum;
    var a, m := MaskedMean(x, S, b, flags, 1.0 / n as real, width), Pool(Mean, WindowOf(x, S, b)[..n], width);
    forall c | 0 <= c < width ensures a[c] == m[c] {
      MaskedIsSum(WindowOf(x, S, b), WindowOf(flags, S, b), n, c);
      ScaleIsDivide(ColumnSum(WindowOf(x, S, b)[..n], c), n);
    }
  }

  // ---- The pool a graph is given ----

  ghost predicate InputsFit(pool: PoolType, inputs: PoolInputs, size: nat, B: nat) {
    && (pool == Mean && inputs.validMask.Some? ==>
          inputs.meanScale.Some? && |inputs.validMask.value| == size && |inputs.meanScale.value| == B)
    && (pool == LastToken && inputs.lastIndices.Some? ==>
          |inputs.lastIndices.value| == B && forall b | 0 <= b < B :: inputs.lastIndices.value[b] < size)
  }

  function PoolAt(pool: PoolType, x: seq<Vec>, S: nat, B: nat, inputs: PoolInputs, width: nat, b: nat): Vec
    requires S > 0 && b < B && Cell(S, b, 0) + S <= |x| && InputsFit(pool, inputs, |x|, B)
  {
    match pool
    case Mean =>
      if inputs.validMask == None then Pool(Mean, WindowOf(x, S, b), width)
      else MaskedMean(x, S, b, inputs.validMask.value, inputs.meanScale.value[b], width)
    case Cls => x[Cell(S, b, 0)]
    case LastToken =>
      if inputs.lastIndices == None then x[Cell(S, b, 0) + (S - 1)] else x[inputs.lastIndices.value[b]]
  }

  function GridPool(pool: PoolType, x: seq<Vec>, S: nat, B: nat, inputs: PoolInputs, width: nat): (out: seq<Vec>)
    requires S > 0 && |x| == S * B && InputsFit(pool, inputs, |x|, B)
    ensures |out| == B
    ensures forall b | 0 <= b < B :: Cell(S, b, 0) + S <= |x| && out[b] == PoolAt(pool, x, S, B, inputs, width, b)
  {
    assert forall b | 0 <= b < B :: Cell(S, b, 0) + S <= |x| by {
      forall b | 0 <= b < B ensures Cell(S, b, 0) + S <= |x| { RowFits(S, B, b); }
    }
    seq(B, b requires 0 <= b < B => PoolAt(pool, x, S, B, inputs, width, b))
  }

  // The inputs tell each sentence's own length.
  ghost predicate InputsTell(pool: PoolType, inputs: PoolInputs, S: nat, lengths: seq<nat>) {
    && InputsFit(pool, inputs, S * |lengths|, |lengths|)
    && forall b | 0 <= b < |lengths| :: TellsLength(pool, inputs, S, b, lengths[b])
  }

  ghost predicate TellsLength(pool: PoolType, inputs: PoolInputs, S: nat, b: nat, n: nat) {
    match pool
    case Mean =>
      if inputs.validMask == None then n == S
      else
        && Cell(S, b, 0) + S <= |inputs.validMask.value|
        && (inputs.meanScale.Some? ==>
              b < |inputs.meanScale.value| && n > 0 && inputs.meanScale.value[b] == 1.0 / n as real)
        && forall s | 0 <= s < S :: WindowOf(inputs.validMask.value, S, b)[s] == if s < n then 1.0 else 0.0
    case Cls => true
    case LastToken =>
      if inputs.lastIndices == None then n == S
      else n > 0 && b < |inputs.lastIndices.value| && inputs.lastIndices.value[b] == Cell(S, b, n - 1)
  }

  // Every pool of a grid is the pool of the sentence alone.
  lemma GridPoolIsAlone(pool: PoolType, x: seq<Vec>, S: nat, inputs: PoolInputs, width: nat, sents: seq<seq<Vec>>,
                        lengths: seq<nat>, b: nat)
    requires S > 0 && Holds(Window(S), x, sents) && |sents| == |lengths| && b < |sents|
    requires |sents[b]| == lengths[b] > 0 && InputsTell(pool, inputs, S, lengths)
    ensures Cell(S, b, 0) + S <= |x| && PoolAt(pool, x, S, |sents|, inputs, width, b) == Pool(pool, sents[b], width)
  {
    RowFits(S, |sents|, b);
    RowsHold(x, S, sents, b);
    assert TellsLength(pool, inputs, S, b, lengths[b]);
    assert lengths[b] == S ==> WindowOf(x, S, b)[..S] == WindowOf(x, S, b);
    hide Holds, InputsTell;
    match pool
    case Mean =>
      if inputs.validMask.Some? { MaskedMeanIsMean(x, S, b, inputs.validMask.value, lengths[b], width); }
    case Cls =>
    case LastToken =>
      assert Cell(S, b, lengths[b] - 1) == Cell(S, b, 0) + (lengths[b] - 1);
  }

  lemma RowsHold(x: seq<Vec>, S: nat, sents: seq<seq<Vec>>, b: nat)
    requires Holds(Window(S), x, sents) && b < |sents| && Cell(S, b, 0) + S <= |x|
    ensures |sents[b]| <= S && WindowOf(x, S, b)[..|sents[b]|] == sents[b]
  {
    forall s | 0 <= s < |sents[b]| ensures WindowOf(x, S, b)[s] == sents[b][s] {
      assert HoldsAt(Window(S), x, b, s, sents[b][s]) && Cell(S, b, s) == Cell(S, b, 0) + s;
    }
  }

  // ---- A packed stream ----

  method PackedPool(pool: PoolType, x: seq<Vec>, offsets: seq<nat>, lengths: seq<nat>, width: nat)
    returns (r: Result<seq<Vec>, PoolError>)
    requires |offsets| >= |lengths| > 0
    ensures r.Ok? <==> forall b | 0 <= b < |lengths| :: lengths[b] > 0 && offsets[b] + lengths[b] <= |x|
    ensures r.Ok? ==> |r.value| == |lengths| && forall b | 0 <= b < |lengths| ::
      r.value[b] == Pool(pool, x[offsets[b]..offsets[b] + lengths[b]], width)
  {
    hide ColumnSum;
    var parts: seq<Vec> := [];
    for b := 0 to |lengths|
      invariant |parts| == b
      invariant forall b' | 0 <= b' < b :: lengths[b'] > 0 && offsets[b'] + lengths[b'] <= |x|
      invariant forall b' | 0 <= b' < b :: parts[b'] == Pool(pool, x[offsets[b']..offsets[b'] + lengths[b']], width)
    {
      var len, start := lengths[b], offsets[b];
      if len == 0 || start + len > |x| { return Err(SliceOutOfRange); }
      var slice := x[start..start + len];
      var part: Vec;
      if pool == Mean {
        part := seq(width, c requires 0 <= c < width => ColumnSum(slice, c) * (1.0 / len as real));
        forall c | 0 <= c < width ensures part[c] == Pool(Mean, slice, width)[c] {
          ScaleIsDivide(ColumnSum(slice, c), len);
        }
        assert part == Pool(Mean, slice, width);
      } else {
        part := x[if pool == Cls then start else start + len - 1];
      }
      parts := parts + [part];
    }
    var out := [parts[0]];
    for i := 1 to |parts|
      invariant out == parts[..i]
    {
      out := out + [parts[i]];
    }
    r := Ok(out);
  }

  // ---- What a mean is ----

  // The mean of equal vectors is that vector.
  lemma MeanOfEqual(xs: seq<Vec>, v: Vec)
    requires xs != [] && forall i | 0 <= i < |xs| :: xs[i] == v
    ensures Pool(Mean, xs, |v|) == v
  {
    forall c | 0 <= c < |v| ensures Pool(Mean, xs, |v|)[c] == v[c] {
      SumOfEqual(xs, v, c);
      TimesOver(v[c], |xs|);
    }
  }

  lemma {:induction false} SumOfEqual(xs: seq<Vec>, v: Vec, c: nat)
    requires c < |v| && forall i | 0 <= i < |xs| :: xs[i] == v
    ensures ColumnSum(xs, c) == |xs| as real * v[c]
  {
    if xs != [] {
      SumOfEqual(xs[..|xs| - 1], v, c);
      OneMore((|xs| - 1) as real, v[c]);
    }
  }

  lemma OneMore(n: real, v: real)
    ensures (n + 1.0) * v == n * v + v
  {
  }

  lemma TimesOver(v: real, n: nat)
    requires n > 0
    ensures n as real * v / n as real == v
  {
  }

  // Every vector counts the same: moving one component moves the mean by its share.
  lemma MeanMoves(xs: seq<Vec>, i: nat, w: Vec, c: nat, width: nat)
    requires i < |xs| && c < width && |xs[i]| == |w| == width
    ensures Pool(Mean, xs[i := w], width)[c] - Pool(Mean, xs, width)[c] == (w[c] - xs[i][c]) / |xs| as real
  {
    SumMoves(xs, i, w, c);
    DivideDifference(ColumnSum(xs[i := w], c), ColumnSum(xs, c), |xs|);
  }

  lemma {:induction false} SumMoves(xs: seq<Vec>, i: nat, w: Vec, c: nat)
    requires i < |xs| && c < |w| == |xs[i]|
    ensures ColumnSum(xs[i := w], c) - ColumnSum(xs, c) == w[c] - xs[i][c]
  {
    var front := xs[..|xs| - 1];
    if i < |xs| - 1 {
      SumMoves(front, i, w, c);
      assert xs[i := w][..|xs| - 1] == front[i := w];
    } else {
      assert xs[i := w][..|xs| - 1] == front;
    }
  }

  lemma DivideDifference(a: real, b: real, n: nat)
    requires n > 0
    ensures a / n as real - b / n as real == (a - b) / n as real
  {
  }
}
