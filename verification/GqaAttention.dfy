// The attention core over a whole batch: tokens lie in one flat sequence, either as
// windows of S tokens or packed end to end, and each form writes its own result.
module GqaAttention {
  import opened Prelude
  import opened Batch
  import opened Attention

  // Where token s of sentence b lies.
  datatype Layout = Window(S: nat) | Stream(offsets: seq<nat>)

  function At(layout: Layout, b: nat, s: nat): nat
    requires layout.Stream? ==> b < |layout.offsets|
  {
    match layout case Window(S) => Cell(S, b, s) case Stream(offsets) => offsets[b] + s
  }

  // Every sentence's tokens are where the layout says; nothing is said of other cells.
  ghost predicate Holds<T>(layout: Layout, x: seq<T>, sents: seq<seq<T>>) {
    && (layout.Stream? ==> |sents| <= |layout.offsets|)
    && (layout.Window? ==> |x| == layout.S * |sents| && forall b | 0 <= b < |sents| :: |sents[b]| <= layout.S)
    && forall b, s | 0 <= b < |sents| && 0 <= s < |sents[b]| :: HoldsAt(layout, x, b, s, sents[b][s])
  }

  ghost predicate HoldsAt<T>(layout: Layout, x: seq<T>, b: nat, s: nat, t: T)
    requires layout.Stream? ==> b < |layout.offsets|
  {
    At(layout, b, s) < |x| && x[At(layout, b, s)] == t
  }

  // ---- Pieces written one after another ----

  function Join<T>(parts: seq<seq<T>>): seq<T> {
    if parts == [] then [] else Join(parts[..|parts| - 1]) + Last(parts)
  }

  lemma JoinNext<T>(parts: seq<seq<T>>, b: nat)
    requires b < |parts|
    ensures Join(parts[..b + 1]) == Join(parts[..b]) + parts[b]
  {
    assert parts[..b + 1][..b] == parts[..b];
  }

  lemma {:induction false} JoinPrefix<T>(parts: seq<seq<T>>, b: nat)
    requires b <= |parts|
    ensures Join(parts[..b]) <= Join(parts)
    decreases |parts| - b
  {
    if b < |parts| {
      JoinNext(parts, b);
      JoinPrefix(parts, b + 1);
    } else {
      assert parts[..b] == parts;
    }
  }

  lemma JoinAt<T>(parts: seq<seq<T>>, b: nat, s: nat)
    requires b < |parts| && s < |parts[b]|
    ensures var i := |Join(parts[..b])| + s; i < |Join(parts)| && Join(parts)[i] == parts[b][s]
  {
    hide Join;
    JoinNext(parts, b);
    JoinPrefix(parts, b + 1);
  }

  lemma {:induction false} JoinEven<T>(parts: seq<seq<T>>, S: nat)
    requires forall b | 0 <= b < |parts| :: |parts[b]| == S
    ensures |Join(parts)| == S * |parts|
  {
    if parts != [] {
      JoinEven(parts[..|parts| - 1], S);
      assert S * |parts| == S * (|parts| - 1) + S;
    }
  }

  // ---- Sentences of a batch ----

  function Situate(layer: Layer, x: seq<Qkv>, pos: Option<seq<nat>>, S: nat): (ps: seq<Placed>)
    requires S > 0 && (layer.rope ==> pos.Some? && |pos.value| == S)
    ensures |ps| == |x|
    ensures forall i | 0 <= i < |x| :: ps[i] == Placed(x[i], if layer.rope then pos.value[ColOf(S, i)] else 0)
  {
    seq(|x|, i requires 0 <= i < |x| => Placed(x[i], if layer.rope then pos.value[ColOf(S, i)] else 0))
  }

  // Offsets tile the packed tokens.
  predicate Tiles(offsets: seq<nat>, lengths: seq<nat>, total: nat) {
    && |offsets| == |lengths| + 1 && offsets[0] == 0 && Last(offsets) == total
    && forall b | 0 <= b < |lengths| :: offsets[b + 1] == offsets[b] + lengths[b]
  }

  lemma {:induction false} TilesBelow(offsets: seq<nat>, lengths: seq<nat>, total: nat, b: nat)
    requires Tiles(offsets, lengths, total) && b < |offsets|
    ensures offsets[b] <= total
    decreases |offsets| - b
  {
    if b < |lengths| { TilesBelow(offsets, lengths, total, b + 1); }
  }

  predicate LayoutFits(layout: Layout, size: nat, lengths: seq<nat>) {
    match layout
    case Window(S) => size == S * |lengths|
    case Stream(offsets) => Tiles(offsets, lengths, size)
  }

  predicate LengthsOk(layout: Layout, lengths: seq<nat>) {
    forall b | 0 <= b < |lengths| :: 0 < lengths[b] && (layout.Window? ==> lengths[b] <= layout.S)
  }

  lemma SentenceBounds(layout: Layout, size: nat, lengths: seq<nat>, b: nat)
    requires LayoutFits(layout, size, lengths) && b < |lengths|
    requires layout.Window? ==> lengths[b] <= layout.S
    ensures layout.Stream? ==> b < |layout.offsets|
    ensures At(layout, b, 0) + lengths[b] <= size
    ensures layout.Window? ==> At(layout, b, 0) + layout.S <= size
  {
    match layout
    case Window(S) =>
      MulLe(b + 1, |lengths|, S);
      assert S * (b + 1) == S * b + S;
    case Stream(offsets) => TilesBelow(offsets, lengths, size, b + 1);
  }

  function Sentence(placed: seq<Placed>, layout: Layout, lengths: seq<nat>, b: nat): (slice: seq<Placed>)
    requires LayoutFits(layout, |placed|, lengths) && LengthsOk(layout, lengths) && b < |lengths|
    ensures |slice| == lengths[b]
  {
    SentenceBounds(layout, |placed|, lengths, b);
    placed[At(layout, b, 0)..At(layout, b, 0) + lengths[b]]
  }

  function Nought(n: nat): (z: seq<Heads>)
    ensures |z| == n
  {
    seq(n, _ => [])
  }

  // One sentence's result, given its window back when the batch is padded.
  function Part(exp: Exponential, layer: Layer, placed: seq<Placed>, layout: Layout, lengths: seq<nat>,
                b: nat): (p: seq<Heads>)
    requires LayoutFits(layout, |placed|, lengths) && LengthsOk(layout, lengths) && b < |lengths|
    ensures |p| == if layout.Window? then layout.S else lengths[b]
    ensures forall s | 0 <= s < lengths[b] :: p[s] == Attend(exp, layer, Sentence(placed, layout, lengths, b))[s]
  {
    Attend(exp, layer, Sentence(placed, layout, lengths, b))
      + Nought(if layout.Window? then layout.S - lengths[b] else 0)
  }

  function Parts(exp: Exponential, layer: Layer, placed: seq<Placed>, layout: Layout,
                 lengths: seq<nat>): (ps: seq<seq<Heads>>)
    requires LayoutFits(layout, |placed|, lengths) && LengthsOk(layout, lengths)
    ensures |ps| == |lengths| && forall b | 0 <= b < |ps| :: ps[b] == Part(exp, layer, placed, layout, lengths, b)
  {
    seq(|lengths|, b requires 0 <= b < |lengths| => Part(exp, layer, placed, layout, lengths, b))
  }

  // Each part starts where the layout puts its sentence, and together they fill the result.
  lemma {:induction false} PartsStart(exp: Exponential, layer: Layer, placed: seq<Placed>, layout: Layout,
                                      lengths: seq<nat>, b: nat)
    requires LayoutFits(layout, |placed|, lengths) && LengthsOk(layout, lengths) && b <= |lengths|
    ensures var n := |Join(Parts(exp, layer, placed, layout, lengths)[..b])|;
      n <= |placed| && (b == |lengths| ==> n == |placed|) && (b < |lengths| ==> n == At(layout, b, 0))
  {
    var parts := Parts(exp, layer, placed, layout, lengths);
    if layout.Window? { JoinEven(parts[..b], layout.S); }
    if b > 0 {
      PartsStart(exp, layer, placed, layout, lengths, b - 1);
      JoinNext(parts, b - 1);
    }
    if b < |lengths| { SentenceBounds(layout, |placed|, lengths, b); }
  }

  // Write a part at its place.
  method SetInPlace(dst: array<Heads>, part: seq<Heads>, offset: nat)
    requires offset + |part| <= dst.Length
    modifies dst
    ensures dst[..] == old(dst[..offset]) + part + old(dst[offset + |part|..])
  {
    ghost var was := dst[..];
    for t := 0 to |part|
      invariant dst[..offset] == was[..offset] && dst[offset + t..] == was[offset + t..]
      invariant dst[offset..offset + t] == part[..t]
    {
      dst[offset + t] := part[t];
    }
    assert part[..|part|] == part;
    assert dst[..] == dst[..offset] + dst[offset..offset + |part|] + dst[offset + |part|..];
  }

  // One attention per sentence, at its own length; results go straight to their places.
  method PerSentence(exp: Exponential, layer: Layer, placed: seq<Placed>, layout: Layout, lengths: seq<nat>)
    returns (r: Result<seq<Heads>, AttentionError>)
    requires LayoutFits(layout, |placed|, lengths)
    ensures if LengthsOk(layout, lengths) then r == Ok(Join(Parts(exp, layer, placed, layout, lengths)))
            else r == Err(BadLength)
  {
    hide LayoutFits, Part, Join, At;
    var parts: seq<seq<Heads>> := [];
    for b := 0 to |lengths|
      invariant forall b' | 0 <= b' < b :: 0 < lengths[b'] && (layout.Window? ==> lengths[b'] <= layout.S)
      invariant |parts| == b
      invariant LengthsOk(layout, lengths) ==> parts == Parts(exp, layer, placed, layout, lengths)[..b]
    {
      var len := lengths[b];
      if len == 0 || (layout.Window? && len > layout.S) { return Err(BadLength); }
      SentenceBounds(layout, |placed|, lengths, b);
      var slice := placed[At(layout, b, 0)..At(layout, b, 0) + len];
      var part := Attend(exp, layer, slice);
      if layout.Window? && len < layout.S { part := part + Nought(layout.S - len); }
      if LengthsOk(layout, lengths) { PartIs(exp, layer, placed, layout, lengths, b); }
      parts := parts + [part];
    }
    assert LengthsOk(layout, lengths);
    assert parts == Parts(exp, layer, placed, layout, lengths);
    var dst := new Heads[|placed|];
    assert Join(parts[..0]) == [] by { EmptyJoin(parts); }
    for b := 0 to |lengths|
      invariant |Join(parts[..b])| <= dst.Length && dst[..|Join(parts[..b])|] == Join(parts[..b])
    {
      PartsStart(exp, layer, placed, layout, lengths, b);
      PartsStart(exp, layer, placed, layout, lengths, b + 1);
      JoinNext(parts, b);
      SentenceBounds(layout, |placed|, lengths, b);
      SetInPlace(dst, parts[b], At(layout, b, 0));
    }
    PartsStart(exp, layer, placed, layout, lengths, |lengths|);
    assert parts[..|lengths|] == parts;
    assert dst[..dst.Length] == dst[..];
    r := Ok(dst[..]);
  }

  lemma EmptyJoin<T>(parts: seq<seq<T>>)
    ensures Join(parts[..0]) == []
  {
  }

  lemma PartIs(exp: Exponential, layer: Layer, placed: seq<Placed>, layout: Layout, lengths: seq<nat>, b: nat)
    requires LayoutFits(layout, |placed|, lengths) && LengthsOk(layout, lengths) && b < |lengths|
    ensures At(layout, b, 0) + lengths[b] <= |placed|
    ensures var alone := Attend(exp, layer, placed[At(layout, b, 0)..At(layout, b, 0) + lengths[b]]);
      Part(exp, layer, placed, layout, lengths, b)
        == if layout.Window? && lengths[b] < layout.S then alone + Nought(layout.S - lengths[b]) else alone
  {
    SentenceBounds(layout, |placed|, lengths, b);
  }

  // The per-sentence forms leave every real token with what its sentence alone gives it.
  lemma PerSentenceHolds(exp: Exponential, layer: Layer, placed: seq<Placed>, layout: Layout, lengths: seq<nat>,
                         sents: seq<seq<Placed>>)
    requires LayoutFits(layout, |placed|, lengths) && LengthsOk(layout, lengths)
    requires Holds(layout, placed, sents) && |sents| == |lengths|
    requires forall b | 0 <= b < |sents| :: |sents[b]| == lengths[b]
    ensures Holds(layout, Join(Parts(exp, layer, placed, layout, lengths)), Attended(exp, layer, sents))
  {
    hide Join, LayoutFits, Sentence, Attend;
    var parts, out := Parts(exp, layer, placed, layout, lengths), Attended(exp, layer, sents);
    PartsStart(exp, layer, placed, layout, lengths, |lengths|);
    assert parts[..|lengths|] == parts;
    forall b, s | 0 <= b < |out| && 0 <= s < |out[b]|
      ensures HoldsAt(layout, Join(parts), b, s, out[b][s])
    {
      SentenceIs(placed, layout, lengths, sents, b);
      PartsStart(exp, layer, placed, layout, lengths, b);
      SentenceBounds(layout, |placed|, lengths, b);
      JoinAt(parts, b, s);
    }
  }

  function Attended(exp: Exponential, layer: Layer, sents: seq<seq<Placed>>): (out: seq<seq<Heads>>)
    ensures |out| == |sents| && forall b | 0 <= b < |sents| :: out[b] == Attend(exp, layer, sents[b])
  {
    seq(|sents|, b requires 0 <= b < |sents| => Attend(exp, layer, sents[b]))
  }

  lemma SentenceIs(placed: seq<Placed>, layout: Layout, lengths: seq<nat>, sents: seq<seq<Placed>>, b: nat)
    requires LayoutFits(layout, |placed|, lengths) && LengthsOk(layout, lengths)
    requires Holds(layout, placed, sents) && |sents| == |lengths| && b < |sents| && |sents[b]| == lengths[b]
    ensures Sentence(placed, layout, lengths, b) == sents[b]
  {
    var slice := Sentence(placed, layout, lengths, b);
    SentenceBounds(layout, |placed|, lengths, b);
    assert slice == placed[At(layout, b, 0)..At(layout, b, 0) + lengths[b]];
    hide Sentence, LayoutFits;
    forall s | 0 <= s < lengths[b] ensures slice[s] == sents[b][s] {
      assert HoldsAt(layout, placed, b, s, sents[b][s]) && At(layout, b, s) == At(layout, b, 0) + s;
    }
  }

  // ---- The windowed form ----

  // Without a mask every key shows.
  predicate MaskRowFits(mask: Option<seq<MaskEntry>>, S: nat, row: nat) {
    mask.Some? ==> Cell(S, row, 0) + S <= |mask.value|
  }

  function MaskRow(mask: Option<seq<MaskEntry>>, S: nat, row: nat): (m: seq<MaskEntry>)
    requires MaskRowFits(mask, S, row)
    ensures |m| == S
  {
    match mask case None => seq(S, _ => Zero) case Some(entries) => entries[Cell(S, row, 0)..Cell(S, row, 0) + S]
  }

  // One row of S entries per query, each showing its first key.
  predicate MaskOpen(mask: Option<seq<MaskEntry>>, S: nat, rows: nat) {
    mask.Some? ==> |mask.value| == S * rows && forall row | 0 <= row < rows :: ShowsFirst(mask.value, S, row)
  }

  predicate ShowsFirst(mask: seq<MaskEntry>, S: nat, row: nat) {
    Cell(S, row, 0) < |mask| && mask[Cell(S, row, 0)] == Zero
  }

  lemma RowFits(S: nat, rows: nat, row: nat)
    requires row < rows
    ensures Cell(S, row, 0) + S <= S * rows
  {
    MulLe(row + 1, rows, S);
    assert S * (row + 1) == S * row + S;
  }

  lemma CellSplit(S: nat, B: nat, i: nat)
    requires S > 0 && i < S * B
    ensures RowOf(S, i) < B && ColOf(S, i) < S && i == Cell(S, RowOf(S, i), ColOf(S, i))
  {
    var b := RowOf(S, i);
    if b >= B { MulLe(B, b, S); }
  }

  ghost predicate TokenFits(size: nat, mask: Option<seq<MaskEntry>>, S: nat, i: nat) {
    && S > 0 && Cell(S, RowOf(S, i), 0) + S <= size
    && (mask.Some? ==> Cell(S, i, 0) + S <= |mask.value| && ShowsFirst(mask.value, S, i))
  }

  lemma TokensFit(mask: Option<seq<MaskEntry>>, S: nat, B: nat, i: nat)
    requires S > 0 && i < S * B && MaskOpen(mask, S, S * B)
    ensures TokenFits(S * B, mask, S, i)
  {
    CellSplit(S, B, i);
    RowFits(S, B, RowOf(S, i));
    RowFits(S, S * B, i);
    assert mask.Some? ==> ShowsFirst(mask.value, S, i);
  }

  // Token i of the flat batch, attended to within its own window.
  function WindowedToken(exp: Exponential, layer: Layer, placed: seq<Placed>, mask: Option<seq<MaskEntry>>, S: nat,
                         i: nat): Heads
    requires TokenFits(|placed|, mask, S, i)
  {
    var b := RowOf(S, i);
    WindowToken(exp, layer, placed[Cell(S, b, 0)..Cell(S, b, 0) + S], MaskRow(mask, S, i), ColOf(S, i))
  }

  function Windowed(exp: Exponential, layer: Layer, placed: seq<Placed>, mask: Option<seq<MaskEntry>>, S: nat,
                    B: nat): (out: seq<Heads>)
    requires S > 0 && |placed| == S * B && MaskOpen(mask, S, S * B)
    ensures |out| == |placed|
    ensures forall i | 0 <= i < |placed| ::
      TokenFits(|placed|, mask, S, i) && out[i] == WindowedToken(exp, layer, placed, mask, S, i)
  {
    assert forall i | 0 <= i < |placed| :: TokenFits(|placed|, mask, S, i) by {
      forall i | 0 <= i < |placed| ensures TokenFits(|placed|, mask, S, i) { TokensFit(mask, S, B, i); }
    }
    seq(|placed|, i requires 0 <= i < |placed| => WindowedToken(exp, layer, placed, mask, S, i))
  }

  // Each query row of sentence b shows that sentence's keys.
  ghost predicate MaskFits(layer: Layer, mask: Option<seq<MaskEntry>>, S: nat, lengths: seq<nat>) {
    && MaskOpen(mask, S, S * |lengths|)
    && forall b, q | 0 <= b < |lengths| && 0 <= q < S :: RowHides(layer, mask, S, Cell(S, b, q), lengths[b])
  }

  ghost predicate RowHides(layer: Layer, mask: Option<seq<MaskEntry>>, S: nat, row: nat, n: nat) {
    && (mask.Some? ==> Cell(S, row, 0) + S <= |mask.value|)
    && Hides(layer, MaskRow(mask, S, row), n)
  }

  // Padded cells never reach a real token.
  lemma WindowedHolds(exp: Exponential, layer: Layer, placed: seq<Placed>, mask: Option<seq<MaskEntry>>, S: nat,
                      lengths: seq<nat>, sents: seq<seq<Placed>>)
    requires S > 0 && |placed| == S * |lengths| && MaskFits(layer, mask, S, lengths)
    requires Holds(Window(S), placed, sents) && |sents| == |lengths|
    requires forall b | 0 <= b < |sents| :: |sents[b]| == lengths[b]
    ensures Holds(Window(S), Windowed(exp, layer, placed, mask, S, |lengths|), Attended(exp, layer, sents))
  {
    var out, flat := Attended(exp, layer, sents), Windowed(exp, layer, placed, mask, S, |lengths|);
    forall b, s | 0 <= b < |out| && 0 <= s < |out[b]|
      ensures HoldsAt(Window(S), flat, b, s, out[b][s])
    {
      CellBelow(S, |lengths|, b, s);
      WindowedAt(exp, layer, placed, mask, S, lengths, sents, b, s);
    }
  }

  lemma WindowedAt(exp: Exponential, layer: Layer, placed: seq<Placed>, mask: Option<seq<MaskEntry>>, S: nat,
                   lengths: seq<nat>, sents: seq<seq<Placed>>, b: nat, s: nat)
    requires MaskFits(layer, mask, S, lengths) && TokenFits(|placed|, mask, S, Cell(S, b, s))
    requires Holds(Window(S), placed, sents) && |sents| == |lengths| && b < |sents| && |sents[b]| == lengths[b]
    requires s < lengths[b] <= S
    ensures WindowedToken(exp, layer, placed, mask, S, Cell(S, b, s)) == AttendToken(exp, layer, sents[b], s)
  {
    hide *;
    TokenFacts(|placed|, mask, S, b, s);
    WindowedIs(exp, layer, placed, mask, S, Cell(S, b, s));
    WindowSlice(placed, S, sents, b);
    RowShows(layer, mask, S, lengths, b, s);
    WindowIsAlone(exp, layer, placed[Cell(S, b, 0)..Cell(S, b, 0) + S], MaskRow(mask, S, Cell(S, b, s)), lengths[b], s);
  }

  // Where a cell's token lies, and the keys it is shown.
  lemma TokenFacts(size: nat, mask: Option<seq<MaskEntry>>, S: nat, b: nat, s: nat)
    requires s < S && TokenFits(size, mask, S, Cell(S, b, s))
    ensures RowOf(S, Cell(S, b, s)) == b && ColOf(S, Cell(S, b, s)) == s && Cell(S, b, 0) + S <= size
    ensures MaskRowFits(mask, S, Cell(S, b, s)) && MaskRow(mask, S, Cell(S, b, s))[0] == Zero
  {
    hide Cell, RowOf, ColOf, MaskRow, ShowsFirst;
    Coordinates(S, b, s);
    FirstShown(mask, S, Cell(S, b, s));
  }

  lemma WindowedIs(exp: Exponential, layer: Layer, placed: seq<Placed>, mask: Option<seq<MaskEntry>>, S: nat, i: nat)
    requires TokenFits(|placed|, mask, S, i) && ColOf(S, i) < S && MaskRow(mask, S, i)[0] == Zero
    ensures var at := Cell(S, RowOf(S, i), 0);
      WindowedToken(exp, layer, placed, mask, S, i)
         == WindowToken(exp, layer, placed[at..at + S], MaskRow(mask, S, i), ColOf(S, i))
  {
    hide WindowToken, Cell, RowOf, ColOf, MaskRow, ShowsFirst;
  }

  lemma FirstShown(mask: Option<seq<MaskEntry>>, S: nat, row: nat)
    requires S > 0 && (mask.Some? ==> Cell(S, row, 0) + S <= |mask.value| && ShowsFirst(mask.value, S, row))
    ensures MaskRow(mask, S, row)[0] == Zero
  {
    hide Cell;
  }

  lemma WindowSlice(placed: seq<Placed>, S: nat, sents: seq<seq<Placed>>, b: nat)
    requires Holds(Window(S), placed, sents) && b < |sents| && Cell(S, b, 0) + S <= |placed|
    ensures |sents[b]| <= S && placed[Cell(S, b, 0)..Cell(S, b, 0) + S][..|sents[b]|] == sents[b]
  {
    var window := placed[Cell(S, b, 0)..Cell(S, b, 0) + S];
    forall k | 0 <= k < |sents[b]| ensures window[k] == sents[b][k] {
      assert HoldsAt(Window(S), placed, b, k, sents[b][k]) && Cell(S, b, k) == Cell(S, b, 0) + k;
    }
  }

  lemma RowShows(layer: Layer, mask: Option<seq<MaskEntry>>, S: nat, lengths: seq<nat>, b: nat, q: nat)
    requires MaskFits(layer, mask, S, lengths) && b < |lengths| && q < S
    ensures MaskRowFits(mask, S, Cell(S, b, q))
    ensures Hides(layer, MaskRow(mask, S, Cell(S, b, q)), lengths[b])
  {
    assert RowHides(layer, mask, S, Cell(S, b, q), lengths[b]);
  }

  // ---- The core ----

  // What the core gives: the form is chosen by what the graph is given, and rotation
  // without places is refused.
  function CoreResult(exp: Exponential, layer: Layer, x: seq<Qkv>, S: nat, B: nat, pos: Option<seq<nat>>,
                      mask: Option<seq<MaskEntry>>, lengths: Option<seq<nat>>,
                      offsets: Option<seq<nat>>): Result<seq<Heads>, AttentionError>
    requires CoreFits(|x|, S, B, pos, mask, lengths, offsets)
  {
    if layer.rope && pos == None then Err(NoPositions)
    else
      var placed := Situate(layer, x, pos, S);
      if lengths.Some? && (B > 1 || offsets.Some?) then
        var layout := if offsets.Some? then Stream(offsets.value) else Window(S);
        if LengthsOk(layout, lengths.value) then Ok(Join(Parts(exp, layer, placed, layout, lengths.value)))
        else Err(BadLength)
      else Ok(Windowed(exp, layer, placed, mask, S, B))
  }

  predicate CoreFits(size: nat, S: nat, B: nat, pos: Option<seq<nat>>, mask: Option<seq<MaskEntry>>,
                     lengths: Option<seq<nat>>, offsets: Option<seq<nat>>)
  {
    && S > 0 && size == S * B && (pos.Some? ==> |pos.value| == S) && MaskOpen(mask, S, S * B)
    && (lengths.Some? ==> LayoutFits(if offsets.Some? then Stream(offsets.value) else Window(S), size, lengths.value))
  }

  method Core(exp: Exponential, layer: Layer, x: seq<Qkv>, S: nat, B: nat, pos: Option<seq<nat>>,
              mask: Option<seq<MaskEntry>>, lengths: Option<seq<nat>>, offsets: Option<seq<nat>>)
    returns (r: Result<seq<Heads>, AttentionError>)
    requires CoreFits(|x|, S, B, pos, mask, lengths, offsets)
    ensures r == CoreResult(exp, layer, x, S, B, pos, mask, lengths, offsets)
  {
    if layer.rope && pos == None { return Err(NoPositions); }
    var placed := Situate(layer, x, pos, S);
    if lengths.Some? && (B > 1 || offsets.Some?) {
      r := PerSentence(exp, layer, placed, if offsets.Some? then Stream(offsets.value) else Window(S), lengths.value);
    } else {
      r := Ok(Windowed(exp, layer, placed, mask, S, B));
    }
  }
}
