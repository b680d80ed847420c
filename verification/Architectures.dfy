// Gemma 3 and BERT over any meaning of their operators: one graph for the whole stack,
// and the same stack declared as streaming units over named slots.
module Architectures {
  import opened Slots
  import opened Partition

  datatype Family = Gemma3 | Bert

  // What attention sees of a graph's inputs.
  datatype Seen = Seen(rope: bool, mask: bool, lengths: bool, offsets: bool)

  // The operators the builders use, on values of any kind; weights are named within a layer.
  datatype Algebra<!V> = Algebra(
    rmsNorm: (V, nat, string) -> V,
    layerNorm: (V, nat, string, string) -> V,
    linear: (V, nat, string) -> V,
    biased: (V, nat, string, string) -> V,
    add: (V, V) -> V,
    geglu: (V, V) -> V,
    gelu: V -> V,
    gqa: (V, V, V, nat, Seen) -> V,
    attention: (V, V, V, nat, bool) -> V,
    embedTokens: V,
    embedLayer: (bool, bool) -> V,
    finalNorm: V -> V)

  // Operators left uninterpreted; a weight is a tensor of a layer.
  datatype Term = Leaf(name: string) | Weight(layer: nat, name: string) | Op(name: string, args: seq<Term>)

  function Present(given: bool, name: string): Term { if given then Leaf(name) else Leaf("none") }

  // The free algebra: a value is the graph that computes it.
  function Terms(): Algebra<Term> {
    Algebra(
      (x: Term, layer: nat, w: string) => Op("rms_norm", [x, Weight(layer, w)]),
      (x: Term, layer: nat, w: string, b: string) =>
        Op("add", [Op("mul", [Op("norm", [x]), Weight(layer, w)]), Weight(layer, b)]),
      (x: Term, layer: nat, w: string) => Op("linear", [Weight(layer, w), x]),
      (x: Term, layer: nat, w: string, b: string) => Op("add", [Op("linear", [Weight(layer, w), x]), Weight(layer, b)]),
      (a: Term, b: Term) => Op("add", [a, b]),
      (a: Term, b: Term) => Op("geglu", [a, b]),
      (x: Term) => Op("gelu", [x]),
      (q: Term, k: Term, v: Term, layer: nat, g: Seen) =>
        Op("gqa_attention", [q, k, v, Weight(layer, "attn_q_norm.weight"), Weight(layer, "attn_k_norm.weight"),
          Present(g.rope, "rope_positions"), Present(g.mask, "mask"), Present(g.lengths, "lengths"),
          Present(g.offsets, "offsets")]),
      (q: Term, k: Term, v: Term, layer: nat, mask: bool) => Op("attention", [q, k, v, Present(mask, "mask")]),
      Op("scale", [Op("get_rows", [Leaf("token_embd.weight"), Leaf("tokens")])]),
      (learned: bool, types: bool) =>
        Op("embed_layer", [Leaf("tokens"), Present(learned, "learned_positions"), Present(types, "types")]),
      (x: Term) => Op("rms_norm", [x, Leaf("output_norm.weight")]))
  }

  // What an architecture, or one unit of it, asks to be given.
  datatype Needs = Needs(learned: bool, rope: bool, types: bool, mask: bool, lengths: bool, packed: bool)

  const NOTHING: Needs := Needs(false, false, false, false, false, false)

  // Which inputs a graph is given. Their contents are the batch's, the same for all graphs.
  datatype Given = Given(learned: bool, rope: bool, types: bool, mask: bool, lengths: bool, offsets: bool)

  function ArchNeeds(f: Family): Needs {
    match f
    case Gemma3 => Needs(false, true, false, true, true, true)
    case Bert => Needs(true, false, true, true, false, false)
  }

  function EmbeddingNeeds(f: Family): Needs {
    match f case Gemma3 => NOTHING case Bert => Needs(true, false, true, false, false, false)
  }

  // ---- Forward builders ----

  function SeenBy(g: Given): Seen { Seen(g.rope, g.mask, g.lengths, g.offsets) }

  function GqaCore<V>(alg: Algebra<V>, q: V, k: V, v: V, layer: nat, g: Given): V {
    alg.linear(alg.gqa(q, k, v, layer, SeenBy(g)), layer, "attn_output.weight")
  }

  function GatedUp<V>(alg: Algebra<V>, x: V, layer: nat): V {
    alg.geglu(alg.linear(x, layer, "ffn_gate.weight"), alg.linear(x, layer, "ffn_up.weight"))
  }

  function BertOutput<V>(alg: Algebra<V>, q: V, k: V, v: V, x: V, layer: nat, g: Given): V {
    alg.layerNorm(alg.add(x,
                          alg.biased(alg.attention(q, k, v, layer, g.mask), layer, "attn_output.weight",
                                     "attn_output.bias")),
                  layer, "attn_output_norm.weight", "attn_output_norm.bias")
  }

  function BertUp<V>(alg: Algebra<V>, x: V, layer: nat): V {
    alg.gelu(alg.biased(x, layer, "ffn_up.weight", "ffn_up.bias"))
  }

  function BertDown<V>(alg: Algebra<V>, h: V, x: V, layer: nat): V {
    alg.layerNorm(alg.add(alg.biased(h, layer, "ffn_down.weight", "ffn_down.bias"), x),
                  layer, "layer_output_norm.weight", "layer_output_norm.bias")
  }

  // ---- The eager stack ----

  function GemmaAttended<V>(alg: Algebra<V>, x: V, layer: nat, g: Given): V {
    var h := alg.rmsNorm(x, layer, "attn_norm.weight");
    var core := GqaCore(alg, alg.linear(h, layer, "attn_q.weight"), alg.linear(h, layer, "attn_k.weight"),
                        alg.linear(h, layer, "attn_v.weight"), layer, g);
    alg.add(x, alg.rmsNorm(core, layer, "post_attention_norm.weight"))
  }

  function BertAttended<V>(alg: Algebra<V>, x: V, layer: nat, g: Given): V {
    BertOutput(alg, alg.biased(x, layer, "attn_q.weight", "attn_q.bias"),
               alg.biased(x, layer, "attn_k.weight", "attn_k.bias"),
               alg.biased(x, layer, "attn_v.weight", "attn_v.bias"), x, layer, g)
  }

  function GemmaFfn<V>(alg: Algebra<V>, x1: V, layer: nat): V {
    var up := GatedUp(alg, alg.rmsNorm(x1, layer, "ffn_norm.weight"), layer);
    alg.add(x1, alg.rmsNorm(alg.linear(up, layer, "ffn_down.weight"), layer, "post_ffw_norm.weight"))
  }

  function BertFfn<V>(alg: Algebra<V>, xa: V, layer: nat): V { BertDown(alg, BertUp(alg, xa, layer), xa, layer) }

  function Block<V>(alg: Algebra<V>, f: Family, x: V, layer: nat, g: Given): V {
    match f
    case Gemma3 => GemmaFfn(alg, GemmaAttended(alg, x, layer, g), layer)
    case Bert => BertFfn(alg, BertAttended(alg, x, layer, g), layer)
  }

  // The two layers written out, one operator after another.
  lemma GemmaLayer<V>(alg: Algebra<V>, x: V, l: nat, g: Given)
    ensures Block(alg, Gemma3, x, l, g) ==
      var normed := alg.rmsNorm(x, l, "attn_norm.weight");
      var q := alg.linear(normed, l, "attn_q.weight");
      var k := alg.linear(normed, l, "attn_k.weight");
      var v := alg.linear(normed, l, "attn_v.weight");
      var heads := alg.gqa(q, k, v, l, Seen(g.rope, g.mask, g.lengths, g.offsets));
      var attended := alg.linear(heads, l, "attn_output.weight");
      var middle := alg.add(x, alg.rmsNorm(attended, l, "post_attention_norm.weight"));
      var inner := alg.rmsNorm(middle, l, "ffn_norm.weight");
      var gate := alg.linear(inner, l, "ffn_gate.weight");
      var up := alg.linear(inner, l, "ffn_up.weight");
      var down := alg.linear(alg.geglu(gate, up), l, "ffn_down.weight");
      alg.add(middle, alg.rmsNorm(down, l, "post_ffw_norm.weight"))
  {
  }

  lemma BertLayer<V>(alg: Algebra<V>, x: V, l: nat, g: Given)
    ensures Block(alg, Bert, x, l, g) ==
      var q := alg.biased(x, l, "attn_q.weight", "attn_q.bias");
      var k := alg.biased(x, l, "attn_k.weight", "attn_k.bias");
      var v := alg.biased(x, l, "attn_v.weight", "attn_v.bias");
      var heads := alg.attention(q, k, v, l, g.mask);
      var attended := alg.biased(heads, l, "attn_output.weight", "attn_output.bias");
      var middle := alg.layerNorm(alg.add(x, attended), l, "attn_output_norm.weight", "attn_output_norm.bias");
      var up := alg.gelu(alg.biased(middle, l, "ffn_up.weight", "ffn_up.bias"));
      var down := alg.biased(up, l, "ffn_down.weight", "ffn_down.bias");
      alg.layerNorm(alg.add(down, middle), l, "layer_output_norm.weight", "layer_output_norm.bias")
  {
  }

  function EmbeddingPhase<V>(alg: Algebra<V>, f: Family, g: Given): V {
    match f case Gemma3 => alg.embedTokens case Bert => alg.embedLayer(g.learned, g.types)
  }

  function FinalPhase<V>(alg: Algebra<V>, f: Family, x: V): V {
    match f case Gemma3 => alg.finalNorm(x) case Bert => x
  }

  // build_graph updates x layer by layer.
  function EagerLayers<V>(alg: Algebra<V>, f: Family, x: V, layers: nat, g: Given): V {
    if layers == 0 then x else Block(alg, f, EagerLayers(alg, f, x, layers - 1, g), layers - 1, g)
  }

  function Eager<V>(alg: Algebra<V>, f: Family, layers: nat, g: Given): V {
    FinalPhase(alg, f, EagerLayers(alg, f, EmbeddingPhase(alg, f, g), layers, g))
  }

  // What stands before and after the layers.
  lemma GraphEnds<V>(alg: Algebra<V>, layers: nat, g: Given)
    ensures Eager(alg, Gemma3, layers, g) == alg.finalNorm(EagerLayers(alg, Gemma3, alg.embedTokens, layers, g))
    ensures Eager(alg, Bert, layers, g) == EagerLayers(alg, Bert, alg.embedLayer(g.learned, g.types), layers, g)
  {
    hide EagerLayers;
  }

  // ---- Units ----

  // Slots are numbered as their names are first met: x, xn, q, k, v, h, x1, fn, fh, fd
  // in a Gemma 3 layer, and x, q, k, v, xa, fh in a BERT layer.
  function SlotCount(f: Family): nat { match f case Gemma3 => 10 case Bert => 6 }

  function UnitCount(f: Family): nat { match f case Gemma3 => 8 case Bert => 4 }

  // The residual stream goes in and comes out of the same slot.
  const RESIDUAL: Slot := 0

  function UnitSlotsOf(f: Family, i: nat): UnitSlots
    requires i < UnitCount(f)
  {
    match f
    case Gemma3 => (
      match i
      case 0 => UnitSlots([0], [1])
      case 1 => UnitSlots([1], [2, 3, 4])
      case 2 => UnitSlots([2, 3, 4], [5])
      case 3 => UnitSlots([5, 0], [6])
      case 4 => UnitSlots([6], [7])
      case 5 => UnitSlots([7], [8])
      case 6 => UnitSlots([8], [9])
      case 7 => UnitSlots([9, 6], [0]))
    case Bert => (
      match i
      case 0 => UnitSlots([0], [1, 2, 3])
      case 1 => UnitSlots([1, 2, 3, 0], [4])
      case 2 => UnitSlots([4], [5])
      case 3 => UnitSlots([5, 4], [0]))
  }

  function StageOf(f: Family, i: nat): Stage {
    match f
    case Gemma3 => if i < 4 then AttentionStage else FfnStage
    case Bert => if i < 2 then AttentionStage else FfnStage
  }

  function UnitNeeds(f: Family, i: nat): Needs {
    match f
    case Gemma3 => if i == 2 then Needs(false, true, false, true, true, true) else NOTHING
    case Bert => if i == 1 then NOTHING.(mask := true) else NOTHING
  }

  // What a unit makes of the values in its input slots.
  function Build<V>(alg: Algebra<V>, f: Family, i: nat, layer: nat, g: Given, s: seq<V>): (out: seq<V>)
    requires i < UnitCount(f) && |s| == |UnitSlotsOf(f, i).inputs|
    ensures |out| == |UnitSlotsOf(f, i).outputs|
  {
    match f
    case Gemma3 => (
      match i
      case 0 => [alg.rmsNorm(s[0], layer, "attn_norm.weight")]
      case 1 => [alg.linear(s[0], layer, "attn_q.weight"), alg.linear(s[0], layer, "attn_k.weight"),
                 alg.linear(s[0], layer, "attn_v.weight")]
      case 2 => [GqaCore(alg, s[0], s[1], s[2], layer, g)]
      case 3 => [alg.add(s[1], alg.rmsNorm(s[0], layer, "post_attention_norm.weight"))]
      case 4 => [alg.rmsNorm(s[0], layer, "ffn_norm.weight")]
      case 5 => [GatedUp(alg, s[0], layer)]
      case 6 => [alg.linear(s[0], layer, "ffn_down.weight")]
      case 7 => [alg.add(s[1], alg.rmsNorm(s[0], layer, "post_ffw_norm.weight"))])
    case Bert => (
      match i
      case 0 => [alg.biased(s[0], layer, "attn_q.weight", "attn_q.bias"),
                 alg.biased(s[0], layer, "attn_k.weight", "attn_k.bias"),
                 alg.biased(s[0], layer, "attn_v.weight", "attn_v.bias")]
      case 1 => [BertOutput(alg, s[0], s[1], s[2], s[3], layer, g)]
      case 2 => [BertUp(alg, s[0], layer)]
      case 3 => [BertDown(alg, s[0], s[1], layer)])
  }

  // ---- What each graph is given ----

  // A padded batch keeps its grid when the caller asks for it.
  function PerSentence(needs: Needs, padded: bool, grid: bool): bool { padded && !grid && needs.lengths }

  function EagerGiven(f: Family, padded: bool, grid: bool): Given {
    var needs := ArchNeeds(f);
    var alone := PerSentence(needs, padded, grid);
    if alone && needs.packed then Given(false, needs.rope, false, false, true, true)
    else Given(needs.learned, needs.rope, needs.types, padded && needs.mask && !alone, alone, false)
  }

  function Either(a: Needs, b: Needs): Needs {
    Needs(a.learned || b.learned, a.rope || b.rope, a.types || b.types, a.mask || b.mask, a.lengths || b.lengths,
          a.packed || b.packed)
  }

  // A group asks for what any of its members asks for.
  function GroupNeeds(f: Family, from: nat, to: nat): Needs
    requires from <= to
  {
    if from == to then NOTHING else Either(GroupNeeds(f, from, to - 1), UnitNeeds(f, to - 1))
  }

  // The layout is one decision for the whole sub-batch.
  function GroupGiven(f: Family, from: nat, to: nat, padded: bool, grid: bool): Given
    requires from <= to
  {
    var (arch, needs) := (ArchNeeds(f), GroupNeeds(f, from, to));
    var alone := PerSentence(arch, padded, grid);
    var lengths := alone && needs.lengths;
    Given(needs.learned, needs.rope, needs.types, padded && needs.mask && !lengths, lengths, alone && arch.packed)
  }

  function EmbeddingGiven(f: Family): Given {
    var needs := EmbeddingNeeds(f);
    Given(needs.learned, needs.rope, needs.types, false, false, false)
  }

  // A unit that looks at the graph's inputs sees in its group what it would see in the
  // one eager graph.
  lemma {:induction false} GroupAsksFor(f: Family, from: nat, to: nat, i: nat)
    requires from <= i < to
    ensures var (g, u) := (GroupNeeds(f, from, to), UnitNeeds(f, i));
      (u.rope ==> g.rope) && (u.mask ==> g.mask) && (u.lengths ==> g.lengths)
  {
    if i < to - 1 { GroupAsksFor(f, from, to - 1, i); }
  }

  lemma {:induction false} GroupAsksWithin(f: Family, from: nat, to: nat)
    requires from <= to
    ensures var (g, a) := (GroupNeeds(f, from, to), ArchNeeds(f));
      (g.rope ==> a.rope) && (g.mask ==> a.mask) && (g.lengths ==> a.lengths)
  {
    if from < to { GroupAsksWithin(f, from, to - 1); }
  }

  lemma SameBuild<V>(alg: Algebra<V>, f: Family, from: nat, to: nat, i: nat, layer: nat, padded: bool, grid: bool,
                     s: seq<V>)
    requires from <= i < to <= UnitCount(f) && |s| == |UnitSlotsOf(f, i).inputs|
    ensures Build(alg, f, i, layer, GroupGiven(f, from, to, padded, grid), s)
         == Build(alg, f, i, layer, EagerGiven(f, padded, grid), s)
  {
    GroupAsksFor(f, from, to, i);
    GroupAsksWithin(f, from, to);
    hide GroupNeeds, BertUp, BertDown, GatedUp;
    var a, b := GroupGiven(f, from, to, padded, grid), EagerGiven(f, padded, grid);
    if UnitNeeds(f, i).mask { assert a.mask == b.mask; }
    if UnitNeeds(f, i).lengths { assert SeenBy(a) == SeenBy(b); }
  }
}
