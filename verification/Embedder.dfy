// The embedder: one text at a time, or a request cut into sub-batches, each run
// dense, padded, per sentence or packed. Every text gets the same vector.
module Embedder {
  import opened Prelude
  import opened Batch
  import opened Attention
  import opened GqaAttention
  import opened Pooling
  import opened Encoder

  datatype BatchLayout = Default | Padded

  datatype Config = Config(pooling: PoolType, finish: Option<Vec -> Vec>, layout: BatchLayout)

  // What the embedder relies on in an architecture: rotation is asked for when a layer
  // uses it; the packed layout needs per-sentence attention and brings no learned
  // positions or types; a padded batch can be told apart from its padding.
  ghost predicate ArchOk(arch: Arch, layout: BatchLayout) {
    && (forall n | 0 <= n < |arch.layers| :: arch.layers[n].rope ==> arch.needsRope)
    && (arch.takesPacked ==> arch.takesLengths && !arch.needsLearned && !arch.needsTypes)
    && (arch.usesMask || (arch.takesLengths && layout != Padded)
        || forall n | 0 <= n < |arch.layers| :: arch.layers[n].causal)
  }

  function Normalized(config: Config, v: Vec): Vec {
    match config.finish case None => v case Some(f) => f(v)
  }

  // The embedding of one token list, computed alone.
  function Alone(exp: Exponential, arch: Arch, config: Config, ids: seq<int>): Vec
    requires ids != []
  {
    Normalized(config, Pool(config.pooling, Encode(exp, arch, ids), arch.width))
  }

  // ---- Which graph ----

  datatype Graph = Graph(inputs: GraphInputs, pool: PoolInputs, packed: bool)

  function When<T>(b: bool, t: T): Option<T> { if b then Some(t) else None }

  function GraphFor(arch: Arch, config: Config, batch: MaterializedBatch): Graph {
    var (S, B) := (batch.seqLen, batch.batchSize);
    var perSentence := batch.padded && config.layout != Padded && arch.takesLengths;
    if perSentence && arch.takesPacked then
      Graph(GraphInputs(batch.totalTokens, 1, batch.packedTokens, None, When(arch.needsRope, batch.packedPositions),
                        None, None, Some(batch.lengths), Some(batch.offsets)),
            PoolInputs(None, None, None), true)
    else
      Graph(GraphInputs(S, B, batch.tokenIds, When(arch.needsLearned, batch.learned), When(arch.needsRope, batch.rope),
                        When(arch.needsTypes, batch.typeIds),
                        When(batch.padded && arch.usesMask && !perSentence, batch.mask),
                        When(perSentence, batch.lengths), None),
            PoolInputs(When(batch.padded && config.pooling == Mean, batch.validMask),
                       When(batch.padded && config.pooling == Mean, batch.meanScale),
                       When(batch.padded && config.pooling == LastToken, batch.lastIndices)), false)
  }

  function IdsOf(items: seq<Item>): (ids: seq<seq<int>>)
    ensures |ids| == |items| && forall b | 0 <= b < |items| :: ids[b] == items[b].ids
  {
    seq(|items|, b requires 0 <= b < |items| => items[b].ids)
  }

  // ---- The padded or dense grid describes its sentences ----

  lemma GridTokens(out: MaterializedBatch, items: seq<Item>, pad: int)
    requires Laid(out, items, pad) && RealRows(items)
    ensures Holds(Window(out.seqLen), out.tokenIds, IdsOf(items))
  {
    var ids := IdsOf(items);
    forall b, s | 0 <= b < |ids| && 0 <= s < |ids[b]|
      ensures HoldsAt(Window(out.seqLen), out.tokenIds, b, s, ids[b][s])
    {
      assert out.tokenIds[Cell(out.seqLen, b, s)] == items[b].ids[s];
    }
  }

  lemma RampAt(n: nat, s: nat)
    requires s < n
    ensures Ramp(n)[s] == s
  {
  }

  lemma GridCells(arch: Arch, config: Config, out: MaterializedBatch, items: seq<Item>, pad: int)
    requires Laid(out, items, pad) && RealRows(items) && !GraphFor(arch, config, out).packed
    requires InputsOk(GraphFor(arch, config, out).inputs)
    ensures forall b, s | 0 <= b < |items| && 0 <= s < |items[b].ids| ::
      CellTells(GraphFor(arch, config, out).inputs, b, s)
  {
    var g, S := GraphFor(arch, config, out).inputs, out.seqLen;
    forall b, s | 0 <= b < |items| && 0 <= s < |items[b].ids| ensures CellTells(g, b, s) {
      CellBelow(S, |items|, b, s);
      Coordinates(S, b, s);
      RampAt(S, s);
      assert out.learned[Cell(S, b, s)] == s;
    }
  }

  // Each row of the padding mask shows exactly its sentence's keys.
  lemma BatchMaskFits(layer: Layer, out: MaterializedBatch, items: seq<Item>)
    requires RealRows(items) && out.seqLen == |Last(items).ids| && Masks(out, items)
    ensures MaskFits(layer, Some(out.mask), out.seqLen, Lengths(IdsOf(items)))
  {
    var S, lengths := out.seqLen, Lengths(IdsOf(items));
    forall row | 0 <= row < S * |items| ensures ShowsFirst(out.mask, S, row) {
      CellSplit(S, |items|, row);
      var b, q := RowOf(S, row), ColOf(S, row);
      assert out.mask[Cell(S, Cell(S, b, q), 0)] == Zero;
    }
    forall b, q | 0 <= b < |lengths| && 0 <= q < S
      ensures RowHides(layer, Some(out.mask), S, Cell(S, b, q), lengths[b])
    {
      CellBelow(S, |items|, b, q);
      MaskRowShows(layer, out, items, b, q);
    }
  }

  lemma MaskRowShows(layer: Layer, out: MaterializedBatch, items: seq<Item>, b: nat, q: nat)
    requires RealRows(items) && out.seqLen == |Last(items).ids| && Masks(out, items)
    requires b < |items| && q < out.seqLen && Cell(out.seqLen, b, q) < out.seqLen * |items|
    ensures RowHides(layer, Some(out.mask), out.seqLen, Cell(out.seqLen, b, q), |items[b].ids|)
  {
    var S := out.seqLen;
    var row := Cell(S, b, q);
    RowFits(S, S * |items|, row);
    forall k | 0 <= k < S
      ensures MaskRow(Some(out.mask), S, row)[k] == if k < |items[b].ids| then Zero else NegInf
    {
      assert Cell(S, row, k) == Cell(S, row, 0) + k;
      assert out.mask[Cell(S, Cell(S, b, q), k)] == if k < |items[b].ids| then Zero else NegInf;
    }
  }

  // Without a mask: nothing to hide when all lengths agree, or when no layer looks ahead.
  lemma NoMaskFits(layer: Layer, S: nat, lengths: seq<nat>)
    requires S > 0 && forall b | 0 <= b < |lengths| :: lengths[b] <= S
    requires layer.causal || forall b | 0 <= b < |lengths| :: lengths[b] == S
    ensures MaskFits(layer, None, S, lengths)
  {
    forall b, q | 0 <= b < |lengths| && 0 <= q < S ensures RowHides(layer, None, S, Cell(S, b, q), lengths[b]) {}
  }

  lemma EvenRows(out: MaterializedBatch, items: seq<Item>, pad: int)
    requires Laid(out, items, pad) && !out.padded && ByLength(items)
    ensures forall b | 0 <= b < |items| :: |items[b].ids| == out.seqLen
  {
    forall b | 0 <= b < |items| ensures |items[b].ids| == out.seqLen {
      assert |items[0].ids| <= |items[b].ids| <= |items[|items| - 1].ids|;
    }
  }

  lemma GridDescribes(arch: Arch, config: Config, out: MaterializedBatch, items: seq<Item>, pad: int)
    requires ArchOk(arch, config.layout) && Laid(out, items, pad) && RealRows(items) && ByLength(items)
    requires !GraphFor(arch, config, out).packed
    ensures Describes(arch, GraphFor(arch, config, out).inputs, IdsOf(items))
  {
    hide Laid, Grid, Masks, Holds, MaskFits, CellTells, ByLength;
    var g, ids := GraphFor(arch, config, out).inputs, IdsOf(items);
    GridShape(out, items, pad);
    GridTokens(out, items, pad);
    if g.mask.Some? {
      forall layer: Layer ensures MaskFits(layer, g.mask, g.S, Lengths(ids)) { BatchMaskFits(layer, out, items); }
      MaskIsOpen(Layer(0, 0, false, false, x => Qkv(x, x, x), (h, x, q, y, k) => 0.0, (h, c, x) => 0.0, (x, hs) => x),
                 g.mask, g.S, Lengths(ids));
    } else if !(g.lengths.Some? && g.B > 1) {
      if !out.padded { EvenRows(out, items, pad); }
      if out.padded && g.lengths.Some? { OneRowNotPadded(out, items, pad); }
      forall n | 0 <= n < |arch.layers| ensures MaskFits(arch.layers[n], g.mask, g.S, Lengths(ids)) {
        NoMaskFits(arch.layers[n], g.S, Lengths(ids));
      }
    }
    GridCells(arch, config, out, items, pad);
    assert out.lengths == Lengths(ids);
  }

  lemma MaskIsOpen(layer: Layer, mask: Option<seq<MaskEntry>>, S: nat, lengths: seq<nat>)
    requires MaskFits(layer, mask, S, lengths)
    ensures MaskOpen(mask, S, S * |lengths|)
  {
  }

  lemma OneRowNotPadded(out: MaterializedBatch, items: seq<Item>, pad: int)
    requires Laid(out, items, pad) && out.padded
    ensures out.batchSize > 1
  {
  }

  // The plain facts of a laid-out batch.
  lemma GridShape(out: MaterializedBatch, items: seq<Item>, pad: int)
    requires Laid(out, items, pad) && RealRows(items)
    ensures out.seqLen > 0 && out.batchSize == |items| && out.seqLen == |Last(items).ids|
    ensures |out.tokenIds| == |out.learned| == |out.typeIds| == out.seqLen * |items| && |out.rope| == out.seqLen
    ensures |out.lengths| == |out.originals| == |items|
    ensures forall b | 0 <= b < |items| :: out.lengths[b] == |items[b].ids| && out.originals[b] == items[b].original
    ensures out.padded ==> Masks(out, items)
  {
  }

  // ---- The packed stream describes its sentences ----

  lemma PackedShape(out: MaterializedBatch, items: seq<Item>, pad: int)
    requires Laid(out, items, pad) && RealRows(items) && out.padded
    ensures Tiles(out.offsets, out.lengths, out.totalTokens) && out.totalTokens > 0
    ensures |out.packedTokens| == |out.packedPositions| == out.totalTokens
  {
    hide Packed, PackedPositions, Grid, Masks;
    PackedSize(items);
    assert items[..0] == [] && items[..|items|] == items;
    forall b | 0 <= b < |out.lengths| ensures out.offsets[b + 1] == out.offsets[b] + out.lengths[b] {
      TokensGrow(items, b);
    }
    TokensGrow(items, |items| - 1);
  }

  lemma PackedAt(out: MaterializedBatch, items: seq<Item>, pad: int, b: nat, s: nat)
    requires Laid(out, items, pad) && RealRows(items) && out.padded && b < |items| && s < |items[b].ids|
    ensures b < |out.offsets| && out.offsets[b] + s < |out.packedTokens| == |out.packedPositions|
    ensures out.packedTokens[out.offsets[b] + s] == items[b].ids[s] && out.packedPositions[out.offsets[b] + s] == s
  {
    hide Packed, PackedPositions, Tokens, Grid, Masks;
    PackedSlice(items, b);
    var from, to := Tokens(items[..b]), Tokens(items[..b + 1]);
    assert Packed(items)[from..to][s] == items[b].ids[s];
    assert PackedPositions(items)[from..to][s] == s;
  }

  lemma PackedDescribes(arch: Arch, config: Config, out: MaterializedBatch, items: seq<Item>, pad: int)
    requires ArchOk(arch, config.layout) && Laid(out, items, pad) && RealRows(items)
    requires GraphFor(arch, config, out).packed
    ensures Describes(arch, GraphFor(arch, config, out).inputs, IdsOf(items))
  {
    hide Laid, ByLength, RowOf;
    var g, ids := GraphFor(arch, config, out).inputs, IdsOf(items);
    GridShape(out, items, pad);
    PackedShape(out, items, pad);
    forall b, s | 0 <= b < |ids| && 0 <= s < |ids[b]|
      ensures HoldsAt(LayoutOf(g), g.tokens, b, s, ids[b][s]) && CellTells(g, b, s)
    {
      PackedAt(out, items, pad, b, s);
      WithinOneRow(g.S, out.offsets[b] + s);
    }
    assert out.lengths == Lengths(ids);
  }

  lemma WithinOneRow(S: nat, i: nat)
    requires i < S
    ensures ColOf(S, i) == i
  {
  }

  // ---- One sub-batch ----

  lemma BatchDescribes(arch: Arch, config: Config, out: MaterializedBatch, items: seq<Item>, pad: int)
    requires ArchOk(arch, config.layout) && Laid(out, items, pad) && RealRows(items) && ByLength(items)
    ensures Describes(arch, GraphFor(arch, config, out).inputs, IdsOf(items))
  {
    if GraphFor(arch, config, out).packed { PackedDescribes(arch, config, out, items, pad); }
    else { GridDescribes(arch, config, out, items, pad); }
  }

  lemma MeanTells(out: MaterializedBatch, items: seq<Item>, pad: int, b: nat)
    requires Laid(out, items, pad) && RealRows(items) && out.padded && b < |items|
    ensures |out.validMask| == out.seqLen * |items| && |out.meanScale| == |items|
    ensures TellsLength(Mean, PoolInputs(Some(out.validMask), Some(out.meanScale), None), out.seqLen, b, |items[b].ids|)
  {
    var S := out.seqLen;
    RowFits(S, |items|, b);
    forall s | 0 <= s < S ensures WindowOf(out.validMask, S, b)[s] == if s < |items[b].ids| then 1.0 else 0.0 {
      assert Cell(S, b, s) == Cell(S, b, 0) + s;
    }
  }

  lemma LastTells(out: MaterializedBatch, items: seq<Item>, pad: int, b: nat)
    requires Laid(out, items, pad) && RealRows(items) && out.padded && b < |items|
    ensures |out.lastIndices| == |items| && out.lastIndices[b] < out.seqLen * |items|
    ensures TellsLength(LastToken, PoolInputs(None, None, Some(out.lastIndices)), out.seqLen, b, |items[b].ids|)
  {
    CellBelow(out.seqLen, |items|, b, |items[b].ids| - 1);
  }

  lemma PoolTells(arch: Arch, config: Config, out: MaterializedBatch, items: seq<Item>, pad: int)
    requires Laid(out, items, pad) && RealRows(items) && ByLength(items) && !GraphFor(arch, config, out).packed
    ensures InputsTell(config.pooling, GraphFor(arch, config, out).pool, out.seqLen, Lengths(IdsOf(items)))
  {
    hide Laid, ByLength;
    if !out.padded { EvenRows(out, items, pad); }
    forall b | 0 <= b < |items| && out.padded
      ensures |out.validMask| == out.seqLen * |items| && |out.meanScale| == |items|
      ensures TellsLength(Mean, PoolInputs(Some(out.validMask), Some(out.meanScale), None), out.seqLen, b,
                          |items[b].ids|)
      ensures |out.lastIndices| == |items| && out.lastIndices[b] < out.seqLen * |items|
      ensures TellsLength(LastToken, PoolInputs(None, None, Some(out.lastIndices)), out.seqLen, b, |items[b].ids|)
    {
      MeanTells(out, items, pad, b);
      LastTells(out, items, pad, b);
    }
    GridShape(out, items, pad);
    forall b | 0 <= b < |items|
      ensures TellsLength(config.pooling, GraphFor(arch, config, out).pool, out.seqLen, b, |items[b].ids|)
    {
    }
  }

  // One row per item of the sub-batch, each what its text gets alone.
  ghost predicate RowsAlone(exp: Exponential, arch: Arch, config: Config, rows: seq<Vec>, items: seq<Item>) {
    && |rows| == |items|
    && forall b | 0 <= b < |items| :: items[b].ids != [] && rows[b] == Alone(exp, arch, config, items[b].ids)
  }

  method RunBatch(exp: Exponential, arch: Arch, config: Config, batch: MaterializedBatch, ghost items: seq<Item>,
                  ghost pad: int)
    returns (rows: seq<Vec>)
    requires ArchOk(arch, config.layout) && Laid(batch, items, pad) && RealRows(items) && ByLength(items)
    ensures RowsAlone(exp, arch, config, rows, items)
  {
    hide Laid, ByLength, ArchOk, Describes, Encode, Pool, Holds, RowsAlone, GraphFor;
    var graph := GraphFor(arch, config, batch);
    BatchDescribes(arch, config, batch, items, pad);
    GridShape(batch, items, pad);
    ArchAsks(arch, config.layout);
    DescribesOk(arch, graph.inputs, IdsOf(items));
    ghost var sents := Each(one => Encode(exp, arch, one), IdsOf(items));
    var x := BuildGraph(exp, arch, graph.inputs, IdsOf(items));
    var pooled := PoolBatch(arch, config, batch, x.value, items, pad, sents);
    rows := Each(v => Normalized(config, v), pooled);
    assert RowsAlone(exp, arch, config, rows, items) by { PooledAlone(exp, arch, config, pooled, sents, items); }
  }

  lemma PooledAlone(exp: Exponential, arch: Arch, config: Config, pooled: seq<Vec>, sents: seq<seq<Vec>>,
                    items: seq<Item>)
    requires RealRows(items) && sents == Each(one => Encode(exp, arch, one), IdsOf(items))
    requires |pooled| == |sents|
    requires forall b | 0 <= b < |sents| :: pooled[b] == Pool(config.pooling, sents[b], arch.width)
    ensures RowsAlone(exp, arch, config, Each(v => Normalized(config, v), pooled), items)
  {
    hide Encode, Pool, Normalized;
  }

  method PoolBatch(arch: Arch, config: Config, batch: MaterializedBatch, x: seq<Vec>, ghost items: seq<Item>,
                   ghost pad: int, ghost sents: seq<seq<Vec>>)
    returns (pooled: seq<Vec>)
    requires Laid(batch, items, pad) && RealRows(items) && ByLength(items)
    requires |x| == |GraphFor(arch, config, batch).inputs.tokens|
    requires Holds(LayoutOf(GraphFor(arch, config, batch).inputs), x, sents)
    requires |sents| == |items| && forall b | 0 <= b < |items| :: |sents[b]| == |items[b].ids|
    ensures |pooled| == |sents|
    ensures forall b | 0 <= b < |sents| :: sents[b] != [] && pooled[b] == Pool(config.pooling, sents[b], arch.width)
  {
    hide Laid, ByLength, Pool, InputsTell, Holds, PoolAt;
    var graph := GraphFor(arch, config, batch);
    GridShape(batch, items, pad);
    if graph.packed {
      PackedShape(batch, items, pad);
      PackedSentences(batch, x, sents);
      var parts := PackedPool(config.pooling, x, batch.offsets, batch.lengths, arch.width);
      pooled := parts.value;
    } else {
      PoolTells(arch, config, batch, items, pad);
      TellsFits(config.pooling, graph.pool, batch.seqLen, Lengths(IdsOf(items)));
      pooled := GridPool(config.pooling, x, batch.seqLen, batch.batchSize, graph.pool, arch.width);
      forall b | 0 <= b < |items| ensures pooled[b] == Pool(config.pooling, sents[b], arch.width) {
        GridPoolIsAlone(config.pooling, x, batch.seqLen, graph.pool, arch.width, sents, Lengths(IdsOf(items)), b);
      }
    }
  }

  lemma ArchAsks(arch: Arch, layout: BatchLayout)
    requires ArchOk(arch, layout)
    ensures forall n | 0 <= n < |arch.layers| :: arch.layers[n].rope ==> arch.needsRope
  {
  }

  lemma TellsFits(pool: PoolType, inputs: PoolInputs, S: nat, lengths: seq<nat>)
    requires InputsTell(pool, inputs, S, lengths)
    ensures InputsFit(pool, inputs, S * |lengths|, |lengths|)
  {
  }

  // The packed slices are the sentences.
  lemma PackedSentences(out: MaterializedBatch, x: seq<Vec>, sents: seq<seq<Vec>>)
    requires Tiles(out.offsets, out.lengths, |x|) && Holds(Stream(out.offsets), x, sents)
    requires |sents| == |out.lengths| && forall b | 0 <= b < |sents| :: |sents[b]| == out.lengths[b]
    ensures forall b | 0 <= b < |sents| ::
      && out.offsets[b] + out.lengths[b] <= |x|
      && x[out.offsets[b]..out.offsets[b] + out.lengths[b]] == sents[b]
  {
    forall b | 0 <= b < |sents|
      ensures out.offsets[b] + out.lengths[b] <= |x|
      ensures x[out.offsets[b]..out.offsets[b] + out.lengths[b]] == sents[b]
    {
      TilesBelow(out.offsets, out.lengths, |x|, b + 1);
      forall s | 0 <= s < |sents[b]| ensures x[out.offsets[b] + s] == sents[b][s] {
        assert HoldsAt(Stream(out.offsets), x, b, s, sents[b][s]);
      }
    }
  }

  // ---- One text ----

  // A single text is a dense batch of one.
  method EmbedOne(exp: Exponential, arch: Arch, config: Config, ids: seq<int>) returns (v: Vec)
    requires ArchOk(arch, config.layout) && ids != []
    ensures v == Alone(exp, arch, config, ids)
  {
    var S := |ids|;
    var inputs := GraphInputs(S, 1, ids, When(arch.needsLearned, Ramp(S)), When(arch.needsRope, Ramp(S)),
                              When(arch.needsTypes, seq(S, _ => 0)), None, None, None);
    OneDescribes(arch, config, inputs, ids);
    hide ArchOk, Describes, Encode, Pool, Holds;
    ArchAsks(arch, config.layout);
    var x := BuildGraph(exp, arch, inputs, [ids]);
    ghost var sents := Each(one => Encode(exp, arch, one), [ids]);
    OneWindow(x.value, S, sents);
    var none := PoolInputs(None, None, None);
    var pooled := GridPool(config.pooling, x.value, S, 1, none, arch.width);
    GridPoolIsAlone(config.pooling, x.value, S, none, arch.width, sents, [S], 0);
    v := Normalized(config, pooled[0]);
  }

  lemma OneWindow(x: seq<Vec>, S: nat, sents: seq<seq<Vec>>)
    requires S > 0 && |x| == S && |sents| == 1 && |sents[0]| == S
    ensures forall pool: PoolType :: InputsTell(pool, PoolInputs(None, None, None), S, [S])
    ensures S * 1 == S
  {
  }

  lemma OneDescribes(arch: Arch, config: Config, inputs: GraphInputs, ids: seq<int>)
    requires ArchOk(arch, config.layout) && ids != []
    requires inputs
          == GraphInputs(|ids|, 1, ids, When(arch.needsLearned, Ramp(|ids|)), When(arch.needsRope, Ramp(|ids|)),
                                   When(arch.needsTypes, seq(|ids|, _ => 0)), None, None, None)
    ensures Describes(arch, inputs, [ids]) && LayoutOf(inputs) == Window(|ids|)
  {
    hide RowOf;
    forall s | 0 <= s < |ids| ensures HoldsAt(Window(|ids|), ids, 0, s, ids[s]) && CellTells(inputs, 0, s) {
      WithinOneRow(|ids|, s);
    }
    forall n | 0 <= n < |arch.layers| ensures MaskFits(arch.layers[n], None, |ids|, Lengths([ids])) {
      NoMaskFits(arch.layers[n], |ids|, Lengths([ids]));
    }
  }

  // ---- A request ----

  // The rows written so far, in order, and what stands in them.
  ghost predicate Written(exp: Exponential, arch: Arch, config: Config, items: seq<Item>, n: nat, out: seq<Vec>,
                          written: seq<nat>) {
    && n == |written| <= |items|
    && forall k | 0 <= k < n :: var item := items[k];
        && written[k] == item.original < |out| && item.ids != []
        && out[item.original] == Alone(exp, arch, config, item.ids)
  }

  lemma WriteOne(exp: Exponential, arch: Arch, config: Config, items: seq<Item>, n: nat, out: seq<Vec>,
                 written: seq<nat>, row: Vec)
    requires Written(exp, arch, config, items, n, out, written) && Distinct(items) && n < |items|
    requires items[n].original < |out| && items[n].ids != [] && row == Alone(exp, arch, config, items[n].ids)
    ensures Written(exp, arch, config, items, n + 1, out[items[n].original := row], written + [items[n].original])
  {
    hide Alone;
  }

  lemma WrittenSize(exp: Exponential, arch: Arch, config: Config, items: seq<Item>, n: nat, out: seq<Vec>,
                    written: seq<nat>)
    requires Written(exp, arch, config, items, n, out, written)
    ensures |written| == n
  {
  }

  // Copy a sub-batch's rows to their callers' places.
  method Scatter(exp: Exponential, arch: Arch, config: Config, originals: seq<nat>, rows: seq<Vec>, out: array<Vec>,
                 ghost items: seq<Item>, ghost from: nat, ghost was: seq<nat>)
    returns (ghost written: seq<nat>)
    requires Distinct(items) && from + |rows| <= |items| && |originals| == |rows|
    requires forall b | 0 <= b < |rows| :: originals[b] == items[from + b].original < out.Length
    requires RowsAlone(exp, arch, config, rows, items[from..from + |rows|])
    requires Written(exp, arch, config, items, from, out[..], was)
    modifies out
    ensures |written| == from + |rows| && Written(exp, arch, config, items, from + |rows|, out[..], written)
    ensures written == was + originals
    ensures forall i | 0 <= i < out.Length && i !in originals :: out[i] == old(out[i])
  {
    hide Written, Alone, Distinct;
    written := was;
    WrittenSize(exp, arch, config, items, from, out[..], was);
    for b := 0 to |rows|
      invariant |written| == from + b && Written(exp, arch, config, items, from + b, out[..], written)
      invariant written == was + originals[..b]
      invariant forall i | 0 <= i < out.Length && i !in originals :: out[i] == old(out[i])
    {
      assert items[from..from + |rows|][b] == items[from + b];
      assert originals[b] == items[from + b].original;
      WriteOne(exp, arch, config, items, from + b, out[..], written, rows[b]);
      ghost var before := out[..];
      out[originals[b]] := rows[b];
      assert out[..] == before[originals[b] := rows[b]];
      written := written + [originals[b]];
      assert originals[..b + 1] == originals[..b] + [originals[b]];
    }
    assert originals[..|rows|] == originals;
  }

  ghost predicate AllFit(plan: Plan)
    requires plan.maxBatch > 0
  {
    forall n | 0 <= n < SubbatchCount(plan) :: Fits(Slice(plan, n))
  }

  ghost predicate Embeddable(encode: TextEncoder, texts: seq<string>, maxBatch: int, vocabSize: int) {
    && maxBatch > 0 && vocabSize > 0
    && (forall i | 0 <= i < |texts| :: Ids(encode, texts[i]) != [])
    && AllFit(PlanOf(encode, texts, maxBatch))
  }

  // Each caller row is written exactly once, with what its own text gets alone.
  method EmbedBatch(exp: Exponential, arch: Arch, config: Config, encode: TextEncoder, texts: seq<string>,
                    maxBatch: int, paddingId: int, vocabSize: int, out: array<Vec>)
    returns (failure: Option<BatchError>, ghost written: seq<nat>)
    requires ArchOk(arch, config.layout) && |texts| <= out.Length
    modifies out
    ensures failure == None <==> texts == [] || Embeddable(encode, texts, maxBatch, vocabSize)
    ensures failure == None ==> forall i | 0 <= i < |texts| ::
      Ids(encode, texts[i]) != [] && out[i] == Alone(exp, arch, config, Ids(encode, texts[i]))
    ensures forall i | |texts| <= i < out.Length :: out[i] == old(out[i])
    // Each row is written at most once, the others keep what they held; a written row is right
    // also when a later sub-batch fails.
    ensures forall j, k | 0 <= j < k < |written| :: written[j] != written[k]
    ensures forall i | 0 <= i < out.Length && i !in written :: out[i] == old(out[i])
    ensures forall i | i in written ::
      && i < |texts| && Ids(encode, texts[i]) != []
      && out[i] == Alone(exp, arch, config, Ids(encode, texts[i]))
    ensures failure == None ==> |written| == |texts| && forall i | 0 <= i < |texts| :: i in written
  {
    hide Alone, ArchOk, AllFit, ByLength, Ordered, SubbatchCount;
    written := [];
    if texts == [] { return None, []; }
    var planned := MakePlan(encode, texts, maxBatch);
    if planned.Err? { return Some(planned.error), []; }
    var plan := planned.value;
    PlanIsOk(plan, encode, texts);
    PlanDistinct(plan, encode, texts);
    failure, written := RunPlan(exp, arch, config, plan, paddingId, vocabSize, out, |texts|);
    if failure == None {
      forall i | 0 <= i < |texts|
        ensures out[i] == Alone(exp, arch, config, Ids(encode, texts[i])) && i in written
      {
        var k :| 0 <= k < |plan.items| && plan.items[k] == Item(Ids(encode, texts[i]), i);
        assert written[k] == i;
      }
    }
  }

  method RunPlan(exp: Exponential, arch: Arch, config: Config, plan: Plan, paddingId: int, vocabSize: int,
                 out: array<Vec>, count: nat)
    returns (failure: Option<BatchError>, ghost written: seq<nat>)
    requires ArchOk(arch, config.layout) && PlanOk(plan) && Distinct(plan.items) && plan.maxBatch > 0
    requires plan.items != []
    requires count <= out.Length && forall k | 0 <= k < |plan.items| :: plan.items[k].original < count
    modifies out
    ensures failure == None <==> vocabSize > 0 && AllFit(plan)
    ensures failure == None ==> |written| == |plan.items|
    ensures Written(exp, arch, config, plan.items, |written|, out[..], written)
    ensures forall i | 0 <= i < out.Length && i !in written :: out[i] == old(out[i])
  {
    hide Written, RowsAlone, Laid, Fits, Slice, ArchOk, Alone, Begin, End, SubbatchCount, Distinct;
    written := [];
    assert Written(exp, arch, config, plan.items, 0, out[..], []) by {
      NothingWritten(exp, arch, config, plan.items, out[..]);
    }
    DoneNext(plan, 0);
    SubbatchBounds(plan, 0);
    for n := 0 to SubbatchCount(plan)
      invariant |written| == Done(plan, n)
      invariant n > 0 ==> vocabSize > 0
      invariant forall n' | 0 <= n' < n :: Fits(Slice(plan, n'))
      invariant Written(exp, arch, config, plan.items, |written|, out[..], written)
      invariant forall i | 0 <= i < out.Length && i !in written :: out[i] == old(out[i])
    {
      var r := Materialize(plan, n, paddingId, vocabSize);
      if r.Err? { return Some(r.error), written; }
      var batch := r.value;
      DoneNext(plan, n);
      SliceOk(plan, n);
      var rows := RunBatch(exp, arch, config, batch, Slice(plan, n), PadId(paddingId, vocabSize));
      BatchRows(exp, arch, config, batch, Slice(plan, n), PadId(paddingId, vocabSize), rows);
      written := Scatter(exp, arch, config, batch.originals, rows, out, plan.items, Done(plan, n), written);
    }
    failure := None;
  }

  lemma NothingWritten(exp: Exponential, arch: Arch, config: Config, items: seq<Item>, out: seq<Vec>)
    ensures Written(exp, arch, config, items, 0, out, [])
  {
  }

  lemma BatchRows(exp: Exponential, arch: Arch, config: Config, batch: MaterializedBatch, items: seq<Item>, pad: int,
                  rows: seq<Vec>)
    requires Laid(batch, items, pad) && RowsAlone(exp, arch, config, rows, items)
    ensures |batch.originals| == |rows| == |items|
    ensures forall b | 0 <= b < |items| :: batch.originals[b] == items[b].original
  {
  }
}
