// A whole encoder stack: embedding, layers, final phase. Running it over a batch
// gives every sentence what it gets alone.
module Encoder {
  import opened Prelude
  import opened Batch
  import opened Attention
  import opened GqaAttention

  // What an architecture asks of the embedder, and its per-token operators.
  datatype Arch = Arch(
    needsLearned: bool, needsRope: bool, needsTypes: bool, usesMask: bool, takesLengths: bool, takesPacked: bool,
    embed: (int, Option<nat>, Option<nat>) -> Vec, layers: seq<Layer>, finish: Vec -> Vec, width: nat)

  // ---- One sentence alone ----

  function Embedded(arch: Arch, ids: seq<int>): (xs: seq<Vec>)
    ensures |xs| == |ids|
    ensures forall s | 0 <= s < |ids| :: xs[s] == arch.embed(ids[s], Learned(arch, s), Types(arch))
  {
    seq(|ids|, s requires 0 <= s < |ids| => arch.embed(ids[s], Learned(arch, s), Types(arch)))
  }

  function Learned(arch: Arch, s: nat): Option<nat> { if arch.needsLearned then Some(s) else None }

  function Types(arch: Arch): Option<nat> { if arch.needsTypes then Some(0) else None }

  function Merged(layer: Layer, xs: seq<Vec>, heads: seq<Heads>): (ys: seq<Vec>)
    requires |xs| == |heads|
    ensures |ys| == |xs| && forall s | 0 <= s < |xs| :: ys[s] == layer.merge(xs[s], heads[s])
  {
    seq(|xs|, s requires 0 <= s < |xs| => layer.merge(xs[s], heads[s]))
  }

  function Projected(layer: Layer, xs: seq<Vec>): (ts: seq<Qkv>)
    ensures |ts| == |xs| && forall s | 0 <= s < |xs| :: ts[s] == layer.project(xs[s])
  {
    seq(|xs|, s requires 0 <= s < |xs| => layer.project(xs[s]))
  }

  function Step(exp: Exponential, layer: Layer, xs: seq<Vec>): (ys: seq<Vec>)
    ensures |ys| == |xs|
  {
    Merged(layer, xs, Attend(exp, layer, InPlace(layer, Projected(layer, xs))))
  }

  function Stack(exp: Exponential, layers: seq<Layer>, xs: seq<Vec>): (ys: seq<Vec>)
    ensures |ys| == |xs|
  {
    if layers == [] then xs else Step(exp, Last(layers), Stack(exp, layers[..|layers| - 1], xs))
  }

  function Finished(arch: Arch, xs: seq<Vec>): (ys: seq<Vec>)
    ensures |ys| == |xs| && forall s | 0 <= s < |xs| :: ys[s] == arch.finish(xs[s])
  {
    seq(|xs|, s requires 0 <= s < |xs| => arch.finish(xs[s]))
  }

  function Encode(exp: Exponential, arch: Arch, ids: seq<int>): (ys: seq<Vec>)
    ensures |ys| == |ids|
  {
    Finished(arch, Stack(exp, arch.layers, Embedded(arch, ids)))
  }

  // ---- A batch ----

  // Inputs of one graph over S by B cells; a packed batch is one row of S cells.
  datatype GraphInputs = GraphInputs(
    S: nat, B: nat, tokens: seq<int>, learned: Option<seq<nat>>, rope: Option<seq<nat>>, types: Option<seq<nat>>,
    mask: Option<seq<MaskEntry>>, lengths: Option<seq<nat>>, offsets: Option<seq<nat>>)

  ghost predicate InputsOk(in': GraphInputs) {
    && in'.S > 0 && |in'.tokens| == in'.S * in'.B
    && (in'.learned.Some? ==> |in'.learned.value| == |in'.tokens|)
    && (in'.types.Some? ==> |in'.types.value| == |in'.tokens|)
    && (in'.rope.Some? ==> |in'.rope.value| == in'.S)
    && MaskOpen(in'.mask, in'.S, in'.S * in'.B)
    && (in'.lengths.Some? ==> LayoutFits(LayoutOf(in'), |in'.tokens|, in'.lengths.value))
  }

  function LayoutOf(in': GraphInputs): Layout {
    match in'.offsets case None => Window(in'.S) case Some(offsets) => Stream(offsets)
  }

  function Entries<T>(s: Option<seq<T>>, i: nat): Option<T>
    requires s.Some? ==> i < |s.value|
  {
    match s case None => None case Some(ts) => Some(ts[i])
  }

  function EmbedAll(arch: Arch, in': GraphInputs): (xs: seq<Vec>)
    requires InputsOk(in')
    ensures |xs| == |in'.tokens|
    ensures forall i | 0 <= i < |xs| ::
      xs[i] == arch.embed(in'.tokens[i], Entries(in'.learned, i), Entries(in'.types, i))
  {
    seq(|in'.tokens|, i requires 0 <= i < |in'.tokens| =>
      arch.embed(in'.tokens[i], Entries(in'.learned, i), Entries(in'.types, i)))
  }

  // The inputs describe these sentences, and hide what is not theirs.
  ghost predicate Describes(arch: Arch, in': GraphInputs, ids: seq<seq<int>>) {
    && InputsOk(in')
    && (forall b | 0 <= b < |ids| :: ids[b] != [])
    && (in'.learned.Some? <==> arch.needsLearned) && (in'.types.Some? <==> arch.needsTypes)
    && (arch.needsRope ==> in'.rope.Some?)
    && Holds(LayoutOf(in'), in'.tokens, ids)
    && (forall b, s | 0 <= b < |ids| && 0 <= s < |ids[b]| :: CellTells(in', b, s))
    && (if in'.lengths.Some? && (in'.B > 1 || in'.offsets.Some?) then in'.lengths.value == Lengths(ids)
        else in'.offsets == None
             && forall n | 0 <= n < |arch.layers| :: MaskFits(arch.layers[n], in'.mask, in'.S, Lengths(ids)))
  }

  function Lengths(ids: seq<seq<int>>): (ls: seq<nat>)
    ensures |ls| == |ids| && forall b | 0 <= b < |ids| :: ls[b] == |ids[b]|
  {
    seq(|ids|, b requires 0 <= b < |ids| => |ids[b]|)
  }

  // Position and type of token s of sentence b.
  ghost predicate CellTells(in': GraphInputs, b: nat, s: nat)
    requires InputsOk(in') && (in'.offsets.Some? ==> b < |in'.offsets.value|)
  {
    var i := At(LayoutOf(in'), b, s);
    && i < |in'.tokens|
    && (in'.learned.Some? ==> in'.learned.value[i] == s)
    && (in'.types.Some? ==> in'.types.value[i] == 0)
    && (in'.rope.Some? ==> in'.rope.value[ColOf(in'.S, i)] == s)
  }

  function Each<T, U>(f: T -> U, xs: seq<T>): (ys: seq<U>)
    ensures |ys| == |xs| && forall i | 0 <= i < |xs| :: ys[i] == f(xs[i])
  {
    seq(|xs|, i requires 0 <= i < |xs| => f(xs[i]))
  }

  lemma EmbeddingHolds(arch: Arch, in': GraphInputs, ids: seq<seq<int>>)
    requires Describes(arch, in', ids)
    ensures Holds(LayoutOf(in'), EmbedAll(arch, in'), Each(one => Embedded(arch, one), ids))
  {
    var xs, out := EmbedAll(arch, in'), Each(one => Embedded(arch, one), ids);
    forall b, s | 0 <= b < |out| && 0 <= s < |out[b]|
      ensures HoldsAt(LayoutOf(in'), xs, b, s, out[b][s])
    {
      assert out[b] == Embedded(arch, ids[b]);
      assert HoldsAt(LayoutOf(in'), in'.tokens, b, s, ids[b][s]) && CellTells(in', b, s);
    }
  }

  lemma PlacesHold(arch: Arch, layer: Layer, in': GraphInputs, ids: seq<seq<int>>, x: seq<Vec>, sents: seq<seq<Vec>>)
    requires Describes(arch, in', ids) && |x| == |in'.tokens| && (layer.rope ==> arch.needsRope)
    requires Holds(LayoutOf(in'), x, sents) && |sents| == |ids| && forall b | 0 <= b < |ids| :: |sents[b]| == |ids[b]|
    ensures Holds(LayoutOf(in'), Situate(layer, Projected(layer, x), in'.rope, in'.S),
                  Each(one => InPlace(layer, Projected(layer, one)), sents))
  {
    var placed, out := Situate(layer, Projected(layer, x), in'.rope, in'.S),
                       Each(one => InPlace(layer, Projected(layer, one)), sents);
    forall b, s | 0 <= b < |out| && 0 <= s < |out[b]|
      ensures HoldsAt(LayoutOf(in'), placed, b, s, out[b][s])
    {
      assert out[b] == InPlace(layer, Projected(layer, sents[b]));
      assert HoldsAt(LayoutOf(in'), x, b, s, sents[b][s]) && CellTells(in', b, s);
    }
  }

  lemma MergedHolds(layer: Layer, layout: Layout, x: seq<Vec>, heads: seq<Heads>, sents: seq<seq<Vec>>,
                    outs: seq<seq<Heads>>)
    requires |x| == |heads| && Holds(layout, x, sents) && Holds(layout, heads, outs)
    requires |sents| == |outs| && forall b | 0 <= b < |sents| :: |sents[b]| == |outs[b]|
    ensures Holds(layout, Merged(layer, x, heads),
                  seq(|sents|, b requires 0 <= b < |sents| => Merged(layer, sents[b], outs[b])))
  {
    var out := seq(|sents|, b requires 0 <= b < |sents| => Merged(layer, sents[b], outs[b]));
    forall b, s | 0 <= b < |out| && 0 <= s < |out[b]|
      ensures HoldsAt(layout, Merged(layer, x, heads), b, s, out[b][s])
    {
      assert HoldsAt(layout, x, b, s, sents[b][s]) && HoldsAt(layout, heads, b, s, outs[b][s]);
    }
  }

  // What the core computes when it computes something.
  ghost predicate CoreGives(exp: Exponential, layer: Layer, in': GraphInputs, x: seq<Vec>, heads: seq<Heads>)
    requires InputsOk(in') && |x| == |in'.tokens| && (layer.rope ==> in'.rope.Some?)
  {
    var placed := Situate(layer, Projected(layer, x), in'.rope, in'.S);
    if in'.lengths.Some? && (in'.B > 1 || in'.offsets.Some?) then
      && LengthsOk(LayoutOf(in'), in'.lengths.value)
      && heads == Join(Parts(exp, layer, placed, LayoutOf(in'), in'.lengths.value))
    else heads == Windowed(exp, layer, placed, in'.mask, in'.S, in'.B)
  }

  lemma SentencesFit(arch: Arch, in': GraphInputs, ids: seq<seq<int>>)
    requires Describes(arch, in', ids)
    ensures LengthsOk(LayoutOf(in'), Lengths(ids))
    ensures in'.offsets == None ==> in'.B == |ids|
  {
    if in'.offsets == None { EqualFactors(in'.S, in'.B, |ids|); }
  }

  lemma EqualFactors(S: nat, a: nat, b: nat)
    requires S > 0 && S * a == S * b
    ensures a == b
  {
    if a < b { MulGap(a, b, S); }
    if b < a { MulGap(b, a, S); }
  }

  // In every form, real tokens get what their sentence alone gives them.
  lemma AttentionHolds(exp: Exponential, arch: Arch, n: nat, in': GraphInputs, ids: seq<seq<int>>, x: seq<Vec>,
                       heads: seq<Heads>, sents: seq<seq<Placed>>)
    requires Describes(arch, in', ids) && n < |arch.layers| && (arch.layers[n].rope ==> arch.needsRope)
    requires |x| == |in'.tokens| && CoreGives(exp, arch.layers[n], in', x, heads)
    requires Holds(LayoutOf(in'), Situate(arch.layers[n], Projected(arch.layers[n], x), in'.rope, in'.S), sents)
    requires |sents| == |ids| && forall b | 0 <= b < |ids| :: |sents[b]| == |ids[b]|
    ensures |heads| == |x| && Holds(LayoutOf(in'), heads, Attended(exp, arch.layers[n], sents))
  {
    var layer := arch.layers[n];
    var placed := Situate(layer, Projected(layer, x), in'.rope, in'.S);
    SentencesFit(arch, in', ids);
    if in'.lengths.Some? && (in'.B > 1 || in'.offsets.Some?) {
      PerSentenceHolds(exp, layer, placed, LayoutOf(in'), Lengths(ids), sents);
      PartsStart(exp, layer, placed, LayoutOf(in'), Lengths(ids), |ids|);
      var parts := Parts(exp, layer, placed, LayoutOf(in'), Lengths(ids));
      assert parts[..|ids|] == parts;
    } else {
      assert MaskFits(layer, in'.mask, in'.S, Lengths(ids));
      WindowedHolds(exp, layer, placed, in'.mask, in'.S, Lengths(ids), sents);
    }
  }

  lemma LayerHolds(exp: Exponential, arch: Arch, n: nat, in': GraphInputs, ids: seq<seq<int>>, x: seq<Vec>,
                   heads: seq<Heads>, sents: seq<seq<Vec>>)
    requires Describes(arch, in', ids) && n < |arch.layers| && (arch.layers[n].rope ==> arch.needsRope)
    requires |x| == |in'.tokens| && CoreGives(exp, arch.layers[n], in', x, heads)
    requires Holds(LayoutOf(in'), x, sents) && |sents| == |ids| && forall b | 0 <= b < |ids| :: |sents[b]| == |ids[b]|
    ensures |heads| == |x|
    ensures Holds(LayoutOf(in'), Merged(arch.layers[n], x, heads), Each(one => Step(exp, arch.layers[n], one), sents))
  {
    hide Describes, CoreGives, Holds, Situate, InPlace, Attend;
    var layer := arch.layers[n];
    var placed := Each(one => InPlace(layer, Projected(layer, one)), sents);
    PlacesHold(arch, layer, in', ids, x, sents);
    AttentionHolds(exp, arch, n, in', ids, x, heads, placed);
    var outs := Attended(exp, layer, placed);
    MergedHolds(layer, LayoutOf(in'), x, heads, sents, outs);
    assert seq(|sents|, b requires 0 <= b < |sents| => Merged(layer, sents[b], outs[b]))
        == Each(one => Step(exp, layer, one), sents);
  }

  lemma FinishedHolds(arch: Arch, layout: Layout, x: seq<Vec>, sents: seq<seq<Vec>>)
    requires Holds(layout, x, sents)
    ensures Holds(layout, Finished(arch, x), Each(one => Finished(arch, one), sents))
  {
    var out := Each(one => Finished(arch, one), sents);
    forall b, s | 0 <= b < |out| && 0 <= s < |out[b]|
      ensures HoldsAt(layout, Finished(arch, x), b, s, out[b][s])
    {
      assert out[b] == Finished(arch, sents[b]);
      assert HoldsAt(layout, x, b, s, sents[b][s]);
    }
  }

  // Embedding, every layer in turn, final phase.
  method BuildGraph(exp: Exponential, arch: Arch, in': GraphInputs, ghost ids: seq<seq<int>>)
    returns (r: Result<seq<Vec>, AttentionError>)
    requires forall n | 0 <= n < |arch.layers| :: arch.layers[n].rope ==> arch.needsRope
    requires Describes(arch, in', ids)
    ensures r.Ok? && |r.value| == |in'.tokens|
    ensures Holds(LayoutOf(in'), r.value, Each(one => Encode(exp, arch, one), ids))
  {
    hide Describes, CoreGives, Holds, Situate, Step, Embedded, Windowed, Parts, Join;
    DescribesOk(arch, in', ids);
    var x := EmbedAll(arch, in');
    ghost var sents := Each(one => Embedded(arch, one), ids);
    EmbeddingHolds(arch, in', ids);
    assert arch.layers[..0] == [];
    assert sents == Each(one => Stack(exp, arch.layers[..0], Embedded(arch, one)), ids);
    for n := 0 to |arch.layers|
      invariant |x| == |in'.tokens|
      invariant sents == Each(one => Stack(exp, arch.layers[..n], Embedded(arch, one)), ids)
      invariant Holds(LayoutOf(in'), x, sents)
    {
      var layer := arch.layers[n];
      SentencesFit(arch, in', ids);
      var heads := Core(exp, layer, Projected(layer, x), in'.S, in'.B, in'.rope, in'.mask, in'.lengths, in'.offsets);
      assert CoreGives(exp, layer, in', x, heads.value) by { CoreDid(exp, layer, in', x, heads); }
      LayerHolds(exp, arch, n, in', ids, x, heads.value, sents);
      x := Merged(layer, x, heads.value);
      StackGrows(exp, arch, n, ids, sents);
      sents := Each(one => Step(exp, layer, one), sents);
    }
    assert arch.layers[..|arch.layers|] == arch.layers;
    FinishedHolds(arch, LayoutOf(in'), x, sents);
    r := Ok(Finished(arch, x));
    assert Each(one => Finished(arch, one), sents) == Each(one => Encode(exp, arch, one), ids);
  }

  lemma DescribesOk(arch: Arch, in': GraphInputs, ids: seq<seq<int>>)
    requires Describes(arch, in', ids)
    ensures InputsOk(in') && (arch.needsRope ==> in'.rope.Some?)
    ensures in'.lengths.Some? && (in'.B > 1 || in'.offsets.Some?) ==> in'.lengths.value == Lengths(ids)
  {
  }

  lemma CoreDid(exp: Exponential, layer: Layer, in': GraphInputs, x: seq<Vec>, r: Result<seq<Heads>, AttentionError>)
    requires InputsOk(in') && |x| == |in'.tokens| && (layer.rope ==> in'.rope.Some?)
    requires in'.lengths.Some? && (in'.B > 1 || in'.offsets.Some?) ==> LengthsOk(LayoutOf(in'), in'.lengths.value)
    requires r
          == CoreResult(exp, layer, Projected(layer, x), in'.S, in'.B, in'.rope, in'.mask, in'.lengths, in'.offsets)
    ensures r.Ok? && CoreGives(exp, layer, in', x, r.value)
  {
  }

  lemma StackGrows(exp: Exponential, arch: Arch, n: nat, ids: seq<seq<int>>, sents: seq<seq<Vec>>)
    requires n < |arch.layers| && sents == Each(one => Stack(exp, arch.layers[..n], Embedded(arch, one)), ids)
    ensures Each(one => Step(exp, arch.layers[n], one), sents)
         == Each(one => Stack(exp, arch.layers[..n + 1], Embedded(arch, one)), ids)
  {
    assert arch.layers[..n + 1][..n] == arch.layers[..n];
  }
}
