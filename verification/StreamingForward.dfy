// The streaming units on activations: per-token operators lifted to a batch, attention
// as the graph's inputs tell it. A block is then one layer of the encoder, so running
// layer after layer keeps every sentence what it is alone.
module StreamingForward {
  import opened Prelude
  import opened Batch
  import opened Attention
  import opened GqaAttention
  import opened Encoder
  import opened Embedder
  import Pooling
  import Net = Architectures

  // The attention of one layer, between its projections and its output projection.
  datatype HeadOps = HeadOps(
    heads: nat, dim: nat, causal: bool, rope: bool,
    score: (nat, Vec, nat, Vec, nat) -> real,
    value: (nat, nat, Vec) -> real)

  // A model of either family: its operators on one token, and its attention layer by layer.
  datatype Model = Model(
    family: Net.Family, layers: nat, ops: Net.Algebra<Vec>, heads: nat -> HeadOps,
    embed: (int, Option<nat>, Option<nat>) -> Vec, width: nat)

  // Only a family whose graphs are given rotary positions rotates.
  ghost predicate ModelOk(m: Model) {
    forall l | 0 <= l < m.layers :: m.heads(l).rope ==> Net.ArchNeeds(m.family).rope
  }

  // ---- One token ----

  const NO_INPUTS := Net.Given(false, false, false, false, false, false)

  // Per-token operators, attention having given these heads.
  function With(ops: Net.Algebra<Vec>, hs: Heads): Net.Algebra<Vec> {
    ops.(gqa := (q: Vec, k: Vec, v: Vec, layer: nat, seen: Net.Seen) => Join(hs),
         attention := (q: Vec, k: Vec, v: Vec, layer: nat, mask: bool) => Join(hs))
  }

  function Projections(f: Net.Family, ops: Net.Algebra<Vec>, layer: nat, x: Vec): Qkv {
    match f
    case Gemma3 =>
      var h := ops.rmsNorm(x, layer, "attn_norm.weight");
      Qkv(ops.linear(h, layer, "attn_q.weight"), ops.linear(h, layer, "attn_k.weight"),
          ops.linear(h, layer, "attn_v.weight"))
    case Bert =>
      Qkv(ops.biased(x, layer, "attn_q.weight", "attn_q.bias"), ops.biased(x, layer, "attn_k.weight", "attn_k.bias"),
          ops.biased(x, layer, "attn_v.weight", "attn_v.bias"))
  }

  function LayerOf(m: Model, layer: nat): Layer {
    var h := m.heads(layer);
    Layer(h.heads, h.dim, h.causal, h.rope, (x: Vec) => Projections(m.family, m.ops, layer, x), h.score, h.value,
          (x: Vec, hs: Heads) => Net.Block(With(m.ops, hs), m.family, x, layer, NO_INPUTS))
  }

  // The architecture the embedder runs for this model.
  function ArchOf(m: Model): (arch: Arch)
    ensures |arch.layers| == m.layers && forall l | 0 <= l < m.layers :: arch.layers[l] == LayerOf(m, l)
  {
    var needs := Net.ArchNeeds(m.family);
    Arch(needs.learned, needs.rope, needs.types, needs.mask, needs.lengths, needs.packed, m.embed,
         seq(m.layers, l requires 0 <= l < m.layers => LayerOf(m, l)),
         (x: Vec) => Net.FinalPhase(m.ops, m.family, x), m.width)
  }

  lemma ArchFits(m: Model, layout: BatchLayout)
    requires ModelOk(m)
    ensures ArchOk(ArchOf(m), layout)
  {
    hide LayerOf;
    var arch := ArchOf(m);
    forall n | 0 <= n < |arch.layers| ensures arch.layers[n].rope ==> arch.needsRope { RopeOf(m, n); }
  }

  lemma RopeOf(m: Model, layer: nat)
    ensures LayerOf(m, layer).rope == m.heads(layer).rope
  {
  }

  // ---- A batch of tokens ----

  function Pairwise(f: (Vec, Vec) -> Vec, a: seq<Vec>, b: seq<Vec>): (out: seq<Vec>)
    ensures |a| == |b| ==> |out| == |a| && forall t | 0 <= t < |a| :: out[t] == f(a[t], b[t])
  {
    seq(Min(|a|, |b|), t requires 0 <= t < |a| && t < |b| => f(a[t], b[t]))
  }

  function Zipped(q: seq<Vec>, k: seq<Vec>, v: seq<Vec>): (ts: seq<Qkv>)
    requires |q| == |k| == |v|
    ensures |ts| == |q| && forall t | 0 <= t < |q| :: ts[t] == Qkv(q[t], k[t], v[t])
  {
    seq(|q|, t requires 0 <= t < |q| => Qkv(q[t], k[t], v[t]))
  }

  function Shown<T>(b: bool, t: Option<T>): Option<T> { if b then t else None }

  // Attention over the batch, given what a graph sees of its inputs; heads side by side.
  function Attending(exp: Exponential, layer: Layer, q: seq<Vec>, k: seq<Vec>, v: seq<Vec>, in': GraphInputs,
                     seen: Net.Seen): seq<Vec> {
    var (pos, mask) := (Shown(seen.rope, in'.rope), Shown(seen.mask, in'.mask));
    var (lengths, offsets) := (Shown(seen.lengths, in'.lengths), Shown(seen.offsets, in'.offsets));
    if |q| == |k| == |v| && CoreFits(|q|, in'.S, in'.B, pos, mask, lengths, offsets) then
      match CoreResult(exp, layer, Zipped(q, k, v), in'.S, in'.B, pos, mask, lengths, offsets)
      case Ok(hs) => Each(h => Join(h), hs)
      case Err(_) => []
    else []
  }

  function Lookup(s: Option<seq<nat>>, given: bool, i: nat): Option<nat> {
    if given && s.Some? && i < |s.value| then Some(s.value[i]) else None
  }

  function Embeddings(m: Model, in': GraphInputs, learned: bool, types: bool): seq<Vec> {
    seq(|in'.tokens|, i requires 0 <= i < |in'.tokens| =>
      m.embed(in'.tokens[i], Lookup(in'.learned, learned, i), Lookup(in'.types, types, i)))
  }

  // The model's operators on whole batches.
  function Lifted(exp: Exponential, m: Model, in': GraphInputs): Net.Algebra<seq<Vec>> {
    var ops := m.ops;
    Net.Algebra(
      (x: seq<Vec>, l: nat, w: string) => Each((t: Vec) => ops.rmsNorm(t, l, w), x),
      (x: seq<Vec>, l: nat, w: string, b: string) => Each((t: Vec) => ops.layerNorm(t, l, w, b), x),
      (x: seq<Vec>, l: nat, w: string) => Each((t: Vec) => ops.linear(t, l, w), x),
      (x: seq<Vec>, l: nat, w: string, b: string) => Each((t: Vec) => ops.biased(t, l, w, b), x),
      (a: seq<Vec>, b: seq<Vec>) => Pairwise(ops.add, a, b),
      (a: seq<Vec>, b: seq<Vec>) => Pairwise(ops.geglu, a, b),
      (x: seq<Vec>) => Each(ops.gelu, x),
      (q: seq<Vec>, k: seq<Vec>, v: seq<Vec>, l: nat, seen: Net.Seen) =>
        Attending(exp, LayerOf(m, l), q, k, v, in', seen),
      (q: seq<Vec>, k: seq<Vec>, v: seq<Vec>, l: nat, mask: bool) =>
        Attending(exp, LayerOf(m, l), q, k, v, in', Net.Seen(false, mask, false, false)),
      Embeddings(m, in', false, false),
      (learned: bool, types: bool) => Embeddings(m, in', learned, types),
      (x: seq<Vec>) => Each(ops.finalNorm, x))
  }

  // ---- A block of the batch is a layer of the encoder ----

  // A graph is given exactly the inputs that are there.
  ghost predicate GivenMatches(in': GraphInputs, g: Net.Given) {
    && (in'.learned.Some? <==> g.learned) && (in'.types.Some? <==> g.types)
    && (in'.rope.Some? <==> g.rope) && (in'.mask.Some? <==> g.mask)
    && (in'.lengths.Some? <==> g.lengths) && (in'.offsets.Some? <==> g.offsets)
  }

  lemma GraphMatches(m: Model, config: Config, batch: MaterializedBatch)
    ensures GivenMatches(GraphFor(ArchOf(m), config, batch).inputs,
                         Net.EagerGiven(m.family, batch.padded, config.layout == Padded))
  {
    hide LayerOf;
  }

  lemma EmbeddingIs(exp: Exponential, m: Model, in': GraphInputs, g: Net.Given)
    requires InputsOk(in') && (in'.learned.Some? <==> ArchOf(m).needsLearned)
    requires (in'.types.Some? <==> ArchOf(m).needsTypes)
    ensures Net.EmbeddingPhase(Lifted(exp, m, in'), m.family, Net.EmbeddingGiven(m.family)) == EmbedAll(ArchOf(m), in')
  {
    hide LayerOf, Attending;
    var arch, needs := ArchOf(m), Net.EmbeddingNeeds(m.family);
    var out, all := Embeddings(m, in', needs.learned, needs.types), EmbedAll(arch, in');
    forall i | 0 <= i < |all| ensures out[i] == all[i] {
      assert Lookup(in'.learned, needs.learned, i) == Entries(in'.learned, i);
      assert Lookup(in'.types, needs.types, i) == Entries(in'.types, i);
    }
  }

  lemma NormEach(exp: Exponential, m: Model, in': GraphInputs, layer: nat, weight: string, x: seq<Vec>)
    ensures var h := Lifted(exp, m, in').rmsNorm(x, layer, weight);
      |h| == |x| && forall t | 0 <= t < |x| :: h[t] == m.ops.rmsNorm(x[t], layer, weight)
  {
    hide Attending, LayerOf, Embeddings, Pairwise;
  }

  lemma LinearEach(exp: Exponential, m: Model, in': GraphInputs, layer: nat, weight: string, x: seq<Vec>)
    ensures var h := Lifted(exp, m, in').linear(x, layer, weight);
      |h| == |x| && forall t | 0 <= t < |x| :: h[t] == m.ops.linear(x[t], layer, weight)
  {
    hide Attending, LayerOf, Embeddings, Pairwise;
  }

  // The projections the units compute are the layer's.
  lemma GemmaProjects(exp: Exponential, m: Model, in': GraphInputs, layer: nat, x: seq<Vec>)
    requires m.family.Gemma3?
    ensures var alg := Lifted(exp, m, in');
      var h := alg.rmsNorm(x, layer, "attn_norm.weight");
      var (q, k, v) := (alg.linear(h, layer, "attn_q.weight"), alg.linear(h, layer, "attn_k.weight"),
                        alg.linear(h, layer, "attn_v.weight"));
      |q| == |k| == |v| == |x| && Zipped(q, k, v) == Projected(LayerOf(m, layer), x)
  {
    hide Lifted, LayerOf;
    var alg := Lifted(exp, m, in');
    NormEach(exp, m, in', layer, "attn_norm.weight", x);
    var h := alg.rmsNorm(x, layer, "attn_norm.weight");
    LinearEach(exp, m, in', layer, "attn_q.weight", h);
    LinearEach(exp, m, in', layer, "attn_k.weight", h);
    LinearEach(exp, m, in', layer, "attn_v.weight", h);
    forall t | 0 <= t < |x| ensures Projected(LayerOf(m, layer), x)[t] == Projections(m.family, m.ops, layer, x[t]) {
      LayerProjects(m, layer, x[t]);
    }
  }

  lemma BertProjects(exp: Exponential, m: Model, in': GraphInputs, layer: nat, x: seq<Vec>)
    requires m.family.Bert?
    ensures var alg := Lifted(exp, m, in');
      var (q, k, v) := (alg.biased(x, layer, "attn_q.weight", "attn_q.bias"),
                        alg.biased(x, layer, "attn_k.weight", "attn_k.bias"),
                        alg.biased(x, layer, "attn_v.weight", "attn_v.bias"));
      |q| == |k| == |v| == |x| && Zipped(q, k, v) == Projected(LayerOf(m, layer), x)
  {
    hide Attending, LayerOf;
    forall t | 0 <= t < |x| ensures Projected(LayerOf(m, layer), x)[t] == Projections(m.family, m.ops, layer, x[t]) {
      LayerProjects(m, layer, x[t]);
    }
  }

  lemma LayerProjects(m: Model, layer: nat, x: Vec)
    ensures LayerOf(m, layer).project(x) == Projections(m.family, m.ops, layer, x)
  {
    hide Projections, Net.Block;
  }

  // What attention gives over the whole batch, when the core gives these heads.
  ghost predicate HeadsAre(exp: Exponential, m: Model, in': GraphInputs, layer: nat, x: seq<Vec>, heads: seq<Heads>) {
    && |heads| == |x|
    && CoreFits(|x|, in'.S, in'.B, in'.rope, in'.mask, in'.lengths, in'.offsets)
    && CoreResult(exp, LayerOf(m, layer), Projected(LayerOf(m, layer), x), in'.S, in'.B, in'.rope, in'.mask,
                  in'.lengths, in'.offsets)
       == Ok(heads)
  }

  // What the attention units of either family compute are these heads, side by side.
  lemma AttentionIs(exp: Exponential, m: Model, in': GraphInputs, layer: nat, x: seq<Vec>, heads: seq<Heads>,
                    g: Net.Given, q: seq<Vec>, k: seq<Vec>, v: seq<Vec>)
    requires HeadsAre(exp, m, in', layer, x, heads) && GivenMatches(in', g)
    requires |q| == |k| == |v| == |x| && Zipped(q, k, v) == Projected(LayerOf(m, layer), x)
    ensures Attending(exp, LayerOf(m, layer), q, k, v, in', Net.SeenBy(g)) == Each(h => Join(h), heads)
  {
    hide LayerOf, CoreResult, CoreFits, Join, Projected, Zipped;
  }

  lemma GemmaOutAt(exp: Exponential, m: Model, in': GraphInputs, layer: nat, x: seq<Vec>, attended: seq<Vec>, hs: Heads,
                   t: nat)
    requires t < |x| == |attended| && attended[t] == Join(hs)
    ensures var (alg, ops) := (Lifted(exp, m, in'), m.ops);
      var out := alg.add(x,
                         alg.rmsNorm(alg.linear(attended, layer, "attn_output.weight"), layer,
                                     "post_attention_norm.weight"));
      && |out| == |x|
      && out[t]
         == ops.add(x[t],
                    ops.rmsNorm(ops.linear(Join(hs), layer, "attn_output.weight"), layer, "post_attention_norm.weight"))
  {
    hide LayerOf, Attending, Join;
  }

  lemma BertOutAt(exp: Exponential, m: Model, in': GraphInputs, layer: nat, x: seq<Vec>, attended: seq<Vec>, hs: Heads,
                  t: nat)
    requires t < |x| == |attended| && attended[t] == Join(hs)
    ensures var (alg, ops) := (Lifted(exp, m, in'), m.ops);
      var out := alg.layerNorm(alg.add(x, alg.biased(attended, layer, "attn_output.weight", "attn_output.bias")),
                               layer, "attn_output_norm.weight", "attn_output_norm.bias");
      && |out| == |x|
      && out[t] == ops.layerNorm(ops.add(x[t], ops.biased(Join(hs), layer, "attn_output.weight", "attn_output.bias")),
                                 layer, "attn_output_norm.weight", "attn_output_norm.bias")
  {
    hide LayerOf, Attending, Join;
  }

  lemma LiftedAttends(exp: Exponential, m: Model, in': GraphInputs, layer: nat, q: seq<Vec>, k: seq<Vec>, v: seq<Vec>,
                      g: Net.Given)
    ensures Lifted(exp, m, in').gqa(q, k, v, layer, Net.SeenBy(g))
         == Attending(exp, LayerOf(m, layer), q, k, v, in', Net.SeenBy(g))
    ensures g.rope == g.lengths == g.offsets == false ==>
      Lifted(exp, m, in').attention(q, k, v, layer, g.mask)
         == Attending(exp, LayerOf(m, layer), q, k, v, in', Net.SeenBy(g))
  {
    hide Attending, LayerOf;
  }

  // Over the whole batch the first half of a layer does to token t what it does to it alone.
  lemma GemmaHalfAt(exp: Exponential, m: Model, in': GraphInputs, layer: nat, x: seq<Vec>, heads: seq<Heads>,
                    g: Net.Given, t: nat)
    requires m.family.Gemma3? && HeadsAre(exp, m, in', layer, x, heads) && GivenMatches(in', g) && t < |x| == |heads|
    ensures var out := Net.GemmaAttended(Lifted(exp, m, in'), x, layer, g);
      |out| == |x| && out[t] == Net.GemmaAttended(With(m.ops, heads[t]), x[t], layer, NO_INPUTS)
  {
    hide LayerOf, Attending, Lifted, HeadsAre, GivenMatches, Zipped, Projected, Join;
    GemmaProjects(exp, m, in', layer, x);
    var alg := Lifted(exp, m, in');
    var h := alg.rmsNorm(x, layer, "attn_norm.weight");
    var q, k, v := alg.linear(h, layer, "attn_q.weight"), alg.linear(h, layer, "attn_k.weight"),
                   alg.linear(h, layer, "attn_v.weight");
    LiftedAttends(exp, m, in', layer, q, k, v, g);
    AttentionIs(exp, m, in', layer, x, heads, g, q, k, v);
    GemmaOutAt(exp, m, in', layer, x, alg.gqa(q, k, v, layer, Net.SeenBy(g)), heads[t], t);
  }

  lemma BertHalfAt(exp: Exponential, m: Model, in': GraphInputs, layer: nat, x: seq<Vec>, heads: seq<Heads>,
                   g: Net.Given, t: nat)
    requires m.family.Bert? && HeadsAre(exp, m, in', layer, x, heads) && GivenMatches(in', g) && t < |x| == |heads|
    requires g.rope == g.lengths == g.offsets == false
    ensures var out := Net.BertAttended(Lifted(exp, m, in'), x, layer, g);
      |out| == |x| && out[t] == Net.BertAttended(With(m.ops, heads[t]), x[t], layer, NO_INPUTS)
  {
    hide LayerOf, Attending, Lifted, HeadsAre, GivenMatches, Zipped, Projected, Join;
    BertProjects(exp, m, in', layer, x);
    var alg := Lifted(exp, m, in');
    var q, k, v := alg.biased(x, layer, "attn_q.weight", "attn_q.bias"),
                   alg.biased(x, layer, "attn_k.weight", "attn_k.bias"),
      alg.biased(x, layer, "attn_v.weight", "attn_v.bias");
    LiftedAttends(exp, m, in', layer, q, k, v, g);
    AttentionIs(exp, m, in', layer, x, heads, g, q, k, v);
    BertOutAt(exp, m, in', layer, x, alg.attention(q, k, v, layer, g.mask), heads[t], t);
  }

  lemma GemmaFfnAt(exp: Exponential, m: Model, in': GraphInputs, layer: nat, x1: seq<Vec>, hs: Heads, t: nat)
    requires t < |x1|
    ensures var out := Net.GemmaFfn(Lifted(exp, m, in'), x1, layer);
      |out| == |x1| && out[t] == Net.GemmaFfn(With(m.ops, hs), x1[t], layer)
  {
    hide LayerOf, Attending, Join;
  }

  lemma BertFfnAt(exp: Exponential, m: Model, in': GraphInputs, layer: nat, xa: seq<Vec>, hs: Heads, t: nat)
    requires t < |xa|
    ensures var out := Net.BertFfn(Lifted(exp, m, in'), xa, layer);
      |out| == |xa| && out[t] == Net.BertFfn(With(m.ops, hs), xa[t], layer)
  {
    hide LayerOf, Attending, Join;
  }

  lemma BlockAt(exp: Exponential, m: Model, in': GraphInputs, layer: nat, x: seq<Vec>, heads: seq<Heads>, g: Net.Given,
                t: nat)
    requires HeadsAre(exp, m, in', layer, x, heads) && GivenMatches(in', g) && t < |x| == |heads|
    requires m.family.Bert? ==> g.rope == g.lengths == g.offsets == false
    ensures var out := Net.Block(Lifted(exp, m, in'), m.family, x, layer, g);
      |out| == |x| && out[t] == Net.Block(With(m.ops, heads[t]), m.family, x[t], layer, NO_INPUTS)
  {
    hide HeadsAre, GivenMatches, Lifted, With, Net.GemmaAttended, Net.BertAttended, Net.GemmaFfn, Net.BertFfn;
    var alg := Lifted(exp, m, in');
    match m.family
    case Gemma3 =>
      GemmaHalfAt(exp, m, in', layer, x, heads, g, t);
      GemmaFfnAt(exp, m, in', layer, Net.GemmaAttended(alg, x, layer, g), heads[t], t);
    case Bert =>
      BertHalfAt(exp, m, in', layer, x, heads, g, t);
      BertFfnAt(exp, m, in', layer, Net.BertAttended(alg, x, layer, g), heads[t], t);
  }

  // So a block of the streamed graph is a layer of the encoder.
  lemma BlockIsLayer(exp: Exponential, m: Model, in': GraphInputs, layer: nat, x: seq<Vec>, heads: seq<Heads>,
                     g: Net.Given)
    requires HeadsAre(exp, m, in', layer, x, heads) && GivenMatches(in', g) && x != [] && |heads| == |x|
    requires m.family.Bert? ==> g.rope == g.lengths == g.offsets == false
    ensures Net.Block(Lifted(exp, m, in'), m.family, x, layer, g) == Merged(LayerOf(m, layer), x, heads)
  {
    hide HeadsAre, Net.Block, Lifted, Projections;
    var out := Net.Block(Lifted(exp, m, in'), m.family, x, layer, g);
    BlockAt(exp, m, in', layer, x, heads, g, 0);
    forall t | 0 <= t < |x| ensures out[t] == LayerOf(m, layer).merge(x[t], heads[t]) {
      BlockAt(exp, m, in', layer, x, heads, g, t);
    }
  }

  // ---- Layer after layer ----

  // The activation after n layers holds, for every sentence, what n layers make of it alone.
  ghost predicate Activation(exp: Exponential, arch: Arch, in': GraphInputs, ids: seq<seq<int>>, n: nat, x: seq<Vec>) {
    && n <= |arch.layers| && |x| == |in'.tokens|
    && Holds(LayoutOf(in'), x, Each(one => Stack(exp, arch.layers[..n], Embedded(arch, one)), ids))
  }

  lemma ActivationStart(exp: Exponential, m: Model, in': GraphInputs, ids: seq<seq<int>>)
    requires Describes(ArchOf(m), in', ids)
    ensures Activation(exp, ArchOf(m), in', ids, 0,
      Net.EmbeddingPhase(Lifted(exp, m, in'), m.family, Net.EmbeddingGiven(m.family)))
  {
    hide LayerOf, Holds, Lifted, Embedded;
    var arch := ArchOf(m);
    EmbeddingIs(exp, m, in', NO_INPUTS);
    EmbeddingHolds(arch, in', ids);
    assert arch.layers[..0] == [];
    assert Each(one => Embedded(arch, one), ids) == Each(one => Stack(exp, arch.layers[..0], Embedded(arch, one)), ids);
  }

  lemma SomeToken(arch: Arch, in': GraphInputs, ids: seq<seq<int>>)
    requires Describes(arch, in', ids) && ids != []
    ensures in'.tokens != []
  {
    assert ids[0] != [];
    assert HoldsAt(LayoutOf(in'), in'.tokens, 0, 0, ids[0][0]);
  }

  lemma ActivationNext(exp: Exponential, m: Model, in': GraphInputs, ids: seq<seq<int>>, n: nat, x: seq<Vec>,
                       g: Net.Given)
    requires ModelOk(m) && Describes(ArchOf(m), in', ids) && GivenMatches(in', g) && n < m.layers && ids != []
    requires m.family.Bert? ==> g.rope == g.lengths == g.offsets == false
    requires Activation(exp, ArchOf(m), in', ids, n, x)
    ensures Activation(exp, ArchOf(m), in', ids, n + 1, Net.Block(Lifted(exp, m, in'), m.family, x, n, g))
  {
    hide LayerOf, Holds, Lifted, Net.Block, Describes, Step, CoreResult, GivenMatches, Stack;
    var arch := ArchOf(m);
    DescribesOk(arch, in', ids);
    RopeOf(m, n);
    SomeToken(arch, in', ids);
    SentencesFit(arch, in', ids);
    var r := CoreResult(exp, LayerOf(m, n), Projected(LayerOf(m, n), x), in'.S, in'.B, in'.rope, in'.mask, in'.lengths,
                        in'.offsets);
    CoreDid(exp, LayerOf(m, n), in', x, r);
    var sents := Each(one => Stack(exp, arch.layers[..n], Embedded(arch, one)), ids);
    LayerHolds(exp, arch, n, in', ids, x, r.value, sents);
    BlockIsLayer(exp, m, in', n, x, r.value, g);
    StackGrows(exp, arch, n, ids, sents);
  }

  // ---- The final phase ----

  lemma FinalIs(exp: Exponential, m: Model, in': GraphInputs, x: seq<Vec>)
    ensures Net.FinalPhase(Lifted(exp, m, in'), m.family, x) == Finished(ArchOf(m), x)
  {
    hide LayerOf, Attending, Embeddings;
  }

  // Final norm, pool and normalization: one row per sentence, what it gets alone.
  method FinalRows(exp: Exponential, m: Model, config: Config, batch: MaterializedBatch, x: seq<Vec>,
                   ghost items: seq<Item>, ghost pad: int)
    returns (rows: seq<Vec>)
    requires ModelOk(m) && Laid(batch, items, pad) && RealRows(items) && ByLength(items)
    requires Activation(exp, ArchOf(m), GraphFor(ArchOf(m), config, batch).inputs, IdsOf(items), m.layers, x)
    ensures RowsAlone(exp, ArchOf(m), config, rows, items)
  {
    hide Laid, ByLength, Holds, Encode, Pooling.Pool, RowsAlone, GraphFor, LayerOf, Lifted, Finished, Stack, Embedded;
    var arch := ArchOf(m);
    var in' := GraphFor(arch, config, batch).inputs;
    FinalIs(exp, m, in', x);
    var y := Net.FinalPhase(Lifted(exp, m, in'), m.family, x);
    ghost var sents := Each(one => Encode(exp, arch, one), IdsOf(items));
    FinalHolds(exp, arch, in', IdsOf(items), x);
    var pooled := PoolBatch(arch, config, batch, y, items, pad, sents);
    rows := Each(v => Normalized(config, v), pooled);
    assert RowsAlone(exp, arch, config, rows, items) by { PooledAlone(exp, arch, config, pooled, sents, items); }
  }

  lemma FinalHolds(exp: Exponential, arch: Arch, in': GraphInputs, ids: seq<seq<int>>, x: seq<Vec>)
    requires Activation(exp, arch, in', ids, |arch.layers|, x)
    ensures |Finished(arch, x)| == |in'.tokens|
    ensures Holds(LayoutOf(in'), Finished(arch, x), Each(one => Encode(exp, arch, one), ids))
  {
    hide Holds, Stack, Embedded;
    assert arch.layers[..|arch.layers|] == arch.layers;
    var sents := Each(one => Stack(exp, arch.layers[..|arch.layers|], Embedded(arch, one)), ids);
    FinishedHolds(arch, LayoutOf(in'), x, sents);
    assert Each(one => Finished(arch, one), sents) == Each(one => Encode(exp, arch, one), ids);
  }
}
