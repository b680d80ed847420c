// Planning a request: texts become token lists, sorted by length and cut into
// sub-batches, each laid out as a padded grid and as a packed list.
module Batch {
  import opened Prelude

  const INT64_MAX: nat := 0x7fff_ffff_ffff_ffff

  datatype Item = Item(ids: seq<int>, original: nat)
  datatype Plan = Plan(items: seq<Item>, maxBatch: nat)

  datatype BatchError = BadMaxBatch | NoIds | CannotEncode(text: nat) | OutOfRange | NoVocabulary | TooLarge

  // ---- The plan ----

  // Shorter first; texts of one length keep the caller's order.
  predicate Earlier(a: Item, b: Item) {
    |a.ids| < |b.ids| || (|a.ids| == |b.ids| && a.original < b.original)
  }

  ghost predicate Ordered(items: seq<Item>) {
    forall i, j | 0 <= i < j < |items| :: Earlier(items[i], items[j])
  }

  ghost predicate ByLength(items: seq<Item>) {
    forall i, j | 0 <= i < j < |items| :: |items[i].ids| <= |items[j].ids|
  }

  // A stable insertion: after every item that is not longer.
  function InsertStable(item: Item, sorted: seq<Item>): seq<Item> {
    if sorted == [] || |Last(sorted).ids| <= |item.ids| then sorted + [item]
    else InsertStable(item, sorted[..|sorted| - 1]) + [Last(sorted)]
  }

  function StableSort(items: seq<Item>): seq<Item> {
    if items == [] then [] else InsertStable(Last(items), StableSort(items[..|items| - 1]))
  }

  lemma {:induction false} InsertMembers(item: Item, sorted: seq<Item>)
    ensures multiset(InsertStable(item, sorted)) == multiset(sorted) + multiset{item}
  {
    if !(sorted == [] || |Last(sorted).ids| <= |item.ids|) {
      var front := sorted[..|sorted| - 1];
      InsertMembers(item, front);
      assert sorted == front + [Last(sorted)];
    }
  }

  // An item that is shorter than the last one goes before it.
  lemma AllEarlier(item: Item, sorted: seq<Item>)
    requires Ordered(sorted) && sorted != [] && |item.ids| < |Last(sorted).ids|
    ensures forall x | x in InsertStable(item, sorted[..|sorted| - 1]) :: Earlier(x, Last(sorted))
  {
    var front := sorted[..|sorted| - 1];
    InsertMembers(item, front);
    forall x | x in InsertStable(item, front) ensures Earlier(x, Last(sorted)) {
      assert x in multiset(InsertStable(item, front));
      assert x == item || x in front;
    }
  }

  lemma {:induction false} InsertOrders(item: Item, sorted: seq<Item>)
    requires Ordered(sorted) && forall i | 0 <= i < |sorted| :: sorted[i].original < item.original
    ensures Ordered(InsertStable(item, sorted))
  {
    if !(sorted == [] || |Last(sorted).ids| <= |item.ids|) {
      InsertOrders(item, sorted[..|sorted| - 1]);
      AllEarlier(item, sorted);
      hide Earlier;
      var out := InsertStable(item, sorted[..|sorted| - 1]);
      forall i | 0 <= i < |out| ensures Earlier(out[i], Last(sorted)) { assert out[i] in out; }
    }
  }

  lemma {:induction false} SortKeeps(items: seq<Item>)
    requires forall i, j | 0 <= i < j < |items| :: items[i].original < items[j].original
    ensures Ordered(StableSort(items)) && multiset(StableSort(items)) == multiset(items)
  {
    if items != [] {
      var front := items[..|items| - 1];
      SortKeeps(front);
      assert items == front + [Last(items)];
      var sorted := StableSort(front);
      forall i | 0 <= i < |sorted| ensures sorted[i].original < Last(items).original {
        assert sorted[i] in multiset(sorted);
        var j :| 0 <= j < |front| && front[j] == sorted[i];
      }
      InsertOrders(Last(items), sorted);
      InsertMembers(Last(items), sorted);
    }
  }

  // What the tokenizer makes of a text, if it can.
  type TextEncoder = string -> Option<seq<int>>

  function Ids(encode: TextEncoder, text: string): seq<int> {
    match encode(text) case None => [] case Some(ids) => ids
  }

  function Listed(encode: TextEncoder, texts: seq<string>, n: nat): (items: seq<Item>)
    requires n <= |texts|
    ensures |items| == n && forall i | 0 <= i < n :: items[i] == Item(Ids(encode, texts[i]), i)
  {
    seq(n, i requires 0 <= i < n => Item(Ids(encode, texts[i]), i))
  }

  function PlanOf(encode: TextEncoder, texts: seq<string>, maxBatch: nat): Plan {
    Plan(StableSort(Listed(encode, texts, |texts|)), maxBatch)
  }

  // Every text has exactly one place in the plan.
  ghost predicate PlanFor(plan: Plan, encode: TextEncoder, texts: seq<string>) {
    && plan.maxBatch > 0 && |plan.items| == |texts| && Ordered(plan.items)
    && (forall i | 0 <= i < |texts| :: Ids(encode, texts[i]) != [] && Item(Ids(encode, texts[i]), i) in plan.items)
    && (forall k | 0 <= k < |plan.items| :: var item := plan.items[k];
        item.original < |texts| && item.ids == Ids(encode, texts[item.original]) && item.ids != [])
  }

  method MakePlan(encode: TextEncoder, texts: seq<string>, maxBatch: int) returns (r: Result<Plan, BatchError>)
    ensures r.Ok? <==> maxBatch > 0 && forall i | 0 <= i < |texts| :: Ids(encode, texts[i]) != []
    ensures r.Ok? ==> r.value == PlanOf(encode, texts, maxBatch) && PlanFor(r.value, encode, texts)
    ensures r == Err(BadMaxBatch) <==> maxBatch <= 0
    ensures r.Err? && maxBatch > 0 ==> exists i :: FirstFailure(encode, texts, i, r.error)
  {
    if maxBatch <= 0 { return Err(BadMaxBatch); }
    var items: seq<Item> := [];
    for i := 0 to |texts|
      invariant forall k | 0 <= k < i :: Ids(encode, texts[k]) != []
      invariant items == Listed(encode, texts, i)
    {
      var ids := encode(texts[i]);
      if ids == None { assert FirstFailure(encode, texts, i, CannotEncode(i)); return Err(CannotEncode(i)); }
      if ids.value == [] { assert FirstFailure(encode, texts, i, NoIds); return Err(NoIds); }
      items := items + [Item(ids.value, i)];
    }
    ListedSorts(encode, texts);
    r := Ok(Plan(StableSort(items), maxBatch));
  }

  lemma ListedSorts(encode: TextEncoder, texts: seq<string>)
    requires forall i | 0 <= i < |texts| :: Ids(encode, texts[i]) != []
    ensures var sorted := StableSort(Listed(encode, texts, |texts|));
      |sorted| == |texts| && forall maxBatch: nat | maxBatch > 0 :: PlanFor(Plan(sorted, maxBatch), encode, texts)
  {
    hide StableSort, Ordered, Ids;
    var items := Listed(encode, texts, |texts|);
    SortKeeps(items);
    SortedMembers(items);
    var sorted := StableSort(items);
    forall i | 0 <= i < |texts| ensures Item(Ids(encode, texts[i]), i) in sorted { assert items[i] in items; }
    forall k | 0 <= k < |sorted|
      ensures sorted[k].original < |texts| && sorted[k].ids == Ids(encode, texts[sorted[k].original]) != []
    {
      assert sorted[k] in items;
    }
  }

  // The first text that has no token list decides the error.
  ghost predicate FirstFailure(encode: TextEncoder, texts: seq<string>, i: nat, error: BatchError) {
    && i < |texts| && (forall k | 0 <= k < i :: Ids(encode, texts[k]) != []) && Ids(encode, texts[i]) == []
    && error == if encode(texts[i]) == None then CannotEncode(i) else NoIds
  }

  lemma SortedMembers(items: seq<Item>)
    requires multiset(StableSort(items)) == multiset(items)
    ensures |StableSort(items)| == |items|
    ensures forall item :: item in StableSort(items) <==> item in items
  {
    var sorted := StableSort(items);
    assert |multiset(sorted)| == |sorted| && |multiset(items)| == |items|;
    forall item ensures item in sorted <==> item in items {
      assert item in sorted <==> item in multiset(sorted);
      assert item in items <==> item in multiset(items);
    }
  }

  ghost predicate Distinct(items: seq<Item>) {
    forall j, k | 0 <= j < k < |items| :: items[j].original != items[k].original
  }

  // No text is planned twice.
  lemma OriginalsDistinct(plan: Plan, encode: TextEncoder, texts: seq<string>, j: nat, k: nat)
    requires PlanFor(plan, encode, texts) && j < k < |plan.items|
    ensures plan.items[j].original != plan.items[k].original
  {
    assert Earlier(plan.items[j], plan.items[k]);
  }

  lemma PlanDistinct(plan: Plan, encode: TextEncoder, texts: seq<string>)
    requires PlanFor(plan, encode, texts)
    ensures Distinct(plan.items)
  {
    forall j, k | 0 <= j < k < |plan.items| ensures plan.items[j].original != plan.items[k].original {
      OriginalsDistinct(plan, encode, texts, j, k);
    }
  }

  lemma PlanIsOk(plan: Plan, encode: TextEncoder, texts: seq<string>)
    requires PlanFor(plan, encode, texts)
    ensures PlanOk(plan)
  {
    forall i, j | 0 <= i < j < |plan.items| ensures |plan.items[i].ids| <= |plan.items[j].ids| {
      assert Earlier(plan.items[i], plan.items[j]);
    }
  }

  // The order leaves no choice: one plan per request.
  lemma {:induction false} PlanUnique(a: seq<Item>, b: seq<Item>)
    requires Ordered(a) && Ordered(b) && forall item :: item in a <==> item in b
    ensures a == b
  {
    assert a != [] ==> a[0] in b;
    assert b != [] ==> b[0] in a;
    if a != [] && b != [] {
      assert a[0] in b && b[0] in a;
      assert a[0] == b[0];
      forall item ensures item in a[1..] <==> item in b[1..] {
        if item in a[1..] { assert item in a && item != a[0]; }
        if item in b[1..] { assert item in b && item != b[0]; }
      }
      PlanUnique(a[1..], b[1..]);
    }
  }

  // ---- Sub-batches ----

  function SubbatchCount(plan: Plan): nat
    requires plan.maxBatch > 0
  {
    if plan.items == [] then 0 else 1 + (|plan.items| - 1) / plan.maxBatch
  }

  function Begin(plan: Plan, index: nat): nat { index * plan.maxBatch }

  function End(plan: Plan, index: nat): nat { Min(Begin(plan, index) + plan.maxBatch, |plan.items|) }

  // Sub-batches are non-empty and tile the plan.
  lemma SubbatchBounds(plan: Plan, index: nat)
    requires plan.maxBatch > 0
    ensures index < SubbatchCount(plan) <==> Begin(plan, index) < |plan.items|
    ensures Begin(plan, index + 1) == Begin(plan, index) + plan.maxBatch
    ensures index + 1 < SubbatchCount(plan) ==> End(plan, index) == Begin(plan, index + 1)
    ensures index + 1 == SubbatchCount(plan) ==> End(plan, index) == |plan.items|
  {
    NextMultiple(index, plan.maxBatch);
    if plan.items != [] { Multiples(|plan.items|, plan.maxBatch, SubbatchCount(plan) - 1, index); }
  }

  // ---- One sub-batch, laid out ----

  // An additive attention mask entry.
  datatype MaskEntry = Zero | NegInf

  datatype MaterializedBatch = MaterializedBatch(
    seqLen: nat, batchSize: nat, padded: bool,
    tokenIds: seq<int>, learned: seq<nat>, rope: seq<nat>, typeIds: seq<nat>,
    originals: seq<nat>, lengths: seq<nat>, valid: nat, padding: nat,
    packedTokens: seq<int>, packedPositions: seq<nat>, offsets: seq<nat>, totalTokens: nat,
    mask: seq<MaskEntry>, validMask: seq<real>, meanScale: seq<real>, lastIndices: seq<nat>)

  // Token s of sentence b, in a grid of rows of S tokens.
  function Cell(S: nat, b: nat, s: nat): nat { s + S * b }

  // The packed view: every sentence's tokens in turn, positions restarting at 0.
  function Packed(items: seq<Item>): seq<int> {
    if items == [] then [] else Packed(items[..|items| - 1]) + Last(items).ids
  }

  function Ramp(n: nat): (r: seq<nat>)
    ensures |r| == n && forall i | 0 <= i < n :: r[i] == i
  {
    seq(n, i => i)
  }

  function PackedPositions(items: seq<Item>): seq<nat> {
    if items == [] then [] else PackedPositions(items[..|items| - 1]) + Ramp(|Last(items).ids|)
  }

  function Tokens(items: seq<Item>): nat {
    if items == [] then 0 else Tokens(items[..|items| - 1]) + |Last(items).ids|
  }

  // What the padded grid holds for sentence b.
  ghost predicate Grid(out: MaterializedBatch, items: seq<Item>, pad: int) {
    && |out.tokenIds| == |out.learned| == |out.typeIds| == out.seqLen * |items|
    && out.rope == Ramp(out.seqLen)
    && (forall i | 0 <= i < |out.typeIds| :: out.typeIds[i] == 0)
    && forall b, s | 0 <= b < |items| && 0 <= s < out.seqLen :: var cell := Cell(out.seqLen, b, s);
        && cell < |out.tokenIds| && out.learned[cell] == s
        && out.tokenIds[cell] == if s < |items[b].ids| then items[b].ids[s] else pad
  }

  ghost predicate Rows(out: MaterializedBatch, items: seq<Item>) {
    && |out.originals| == |out.lengths| == |items|
    && forall b | 0 <= b < |items| :: out.originals[b] == items[b].original && out.lengths[b] == |items[b].ids|
  }

  ghost predicate PackedView(out: MaterializedBatch, items: seq<Item>) {
    && out.packedTokens == Packed(items) && out.packedPositions == PackedPositions(items)
    && out.totalTokens == Tokens(items)
    && |out.offsets| == |items| + 1
    && forall b | 0 <= b <= |items| :: out.offsets[b] == Tokens(items[..b])
  }

  ghost predicate Masks(out: MaterializedBatch, items: seq<Item>) {
    var S := out.seqLen;
    && |out.mask| == S * (S * |items|) && |out.validMask| == S * |items|
    && |out.meanScale| == |out.lastIndices| == |items|
    && (forall b | 0 <= b < |items| :: |items[b].ids| > 0
          && out.meanScale[b] == 1.0 / |items[b].ids| as real
          && out.lastIndices[b] == Cell(S, b, |items[b].ids| - 1))
    && (forall b, s | 0 <= b < |items| && 0 <= s < S :: Cell(S, b, s) < |out.validMask|
          && out.validMask[Cell(S, b, s)] == if s < |items[b].ids| then 1.0 else 0.0)
    && forall b, q, k | 0 <= b < |items| && 0 <= q < S && 0 <= k < S :: Cell(S, Cell(S, b, q), k) < |out.mask|
          && out.mask[Cell(S, Cell(S, b, q), k)] == if k < |items[b].ids| then Zero else NegInf
  }

  ghost predicate NoPackedView(out: MaterializedBatch) {
    && out.packedTokens == [] && out.packedPositions == [] && out.offsets == [] && out.totalTokens == 0
    && out.mask == [] && out.validMask == [] && out.meanScale == [] && out.lastIndices == []
  }

  ghost predicate Laid(out: MaterializedBatch, items: seq<Item>, pad: int) {
    && items != [] && out.batchSize == |items| && out.seqLen == |Last(items).ids|
    && (out.padded <==> |items[0].ids| != out.seqLen)
    && Grid(out, items, pad) && Rows(out, items)
    && out.valid == Tokens(items) && out.valid + out.padding == out.seqLen * |items|
    && (if out.padded then PackedView(out, items) && Masks(out, items) else NoPackedView(out))
  }

  // What must fit the machine's integers.
  ghost predicate Fits(items: seq<Item>)
    requires items != []
  {
    var (S, B) := (|Last(items).ids|, |items|);
    && B <= INT64_MAX && S * B <= SIZE_MAX && LengthsFit(items)
    && (|items[0].ids| != S ==> Tokens(items) <= INT_MAX && S * S * B <= SIZE_MAX && LastsFit(items, S))
  }

  ghost predicate LengthsFit(items: seq<Item>) { forall b | 0 <= b < |items| :: |items[b].ids| <= INT_MAX }

  ghost predicate LastsFit(items: seq<Item>, S: nat) {
    forall b | 0 <= b < |items| :: Cell(S, b, |items[b].ids|) <= INT_MAX + 1
  }

  ghost predicate PlanOk(plan: Plan) {
    ByLength(plan.items) && forall k | 0 <= k < |plan.items| :: plan.items[k].ids != []
  }

  function PadId(paddingId: int, vocabSize: int): int {
    if 0 <= paddingId < vocabSize then paddingId else 0
  }

  // ---- Grid coordinates ----

  function RowOf(S: nat, i: nat): nat requires S > 0 { i / S }

  function ColOf(S: nat, i: nat): nat requires S > 0 { i % S }

  lemma Coordinates(S: nat, b: nat, s: nat)
    requires s < S
    ensures RowOf(S, Cell(S, b, s)) == b && ColOf(S, Cell(S, b, s)) == s
    ensures Cell(S, b, s + 1) == Cell(S, b, s) + 1 && Cell(S, b, S) == Cell(S, b + 1, 0)
    ensures Cell(S, b, s) < S * (b + 1)
  {
    DivMod(S, b, s);
    assert S * (b + 1) == S * b + S;
  }

  lemma DivMod(S: nat, b: nat, s: nat)
    requires s < S
    ensures (s + S * b) / S == b && (s + S * b) % S == s
  {
    var q, r := (s + S * b) / S, (s + S * b) % S;
    assert S * q + r == s + S * b;
    if q < b { MulGap(q, b, S); }
    if q > b { MulGap(b, q, S); }
  }

  lemma CellBelow(S: nat, B: nat, b: nat, s: nat)
    requires b < B && s < S
    ensures Cell(S, b, s) < S * B
  {
    Coordinates(S, b, s);
    MulLe(b + 1, B, S);
  }

  // ---- Laying a sub-batch out ----

  function TokenAt(items: seq<Item>, pad: int, b: nat, s: nat): int {
    if b < |items| && s < |items[b].ids| then items[b].ids[s] else pad
  }

  ghost predicate Filled(tokens: seq<int>, learned: seq<nat>, n: nat, items: seq<Item>, S: nat, pad: int)
    requires S > 0
  {
    && |tokens| == |learned| == S * |items| && n <= |tokens|
    && (forall i | 0 <= i < n ::
          tokens[i] == TokenAt(items, pad, RowOf(S, i), ColOf(S, i)) && learned[i] == ColOf(S, i))
    && forall i | n <= i < |tokens| :: tokens[i] == pad
  }

  method FillGrid(items: seq<Item>, S: nat, pad: int)
    returns (ok: bool, tokens: seq<int>, learned: seq<nat>, originals: seq<nat>, lengths: seq<nat>, valid: nat,
             padding: nat)
    requires S > 0 && forall b | 0 <= b < |items| :: |items[b].ids| <= S
    ensures ok <==> LengthsFit(items)
    ensures ok ==> Filled(tokens, learned, S * |items|, items, S, pad)
    ensures ok ==>
      && |originals| == |lengths| == |items|
      && forall b | 0 <= b < |items| :: originals[b] == items[b].original && lengths[b] == |items[b].ids|
    ensures ok ==> valid == Tokens(items) && valid + padding == S * |items|
  {
    hide Filled, TokenAt, Cell, RowOf, ColOf;
    var B := |items|;
    tokens, learned := seq(S * B, _ => pad), seq(S * B, _ => 0);
    originals, lengths := seq(B, _ => 0), seq(B, _ => 0);
    valid, padding := 0, 0;
    NothingFilled(tokens, learned, items, S, pad);
    for b := 0 to B
      invariant Filled(tokens, learned, Cell(S, b, 0), items, S, pad)
      invariant |originals| == |lengths| == B
      invariant forall b' | 0 <= b' < b ::
        originals[b'] == items[b'].original && lengths[b'] == |items[b'].ids| <= INT_MAX
      invariant valid == Tokens(items[..b]) && valid + padding == S * b
    {
      var item := items[b];
      if |item.ids| > INT_MAX { return false, [], [], [], [], 0, 0; }
      originals, lengths := originals[b := item.original], lengths[b := |item.ids|];
      assert items[..b + 1][..b] == items[..b];
      valid, padding := valid + |item.ids|, padding + (S - |item.ids|);
      assert S * (b + 1) == S * b + S;
      for s := 0 to S
        invariant Filled(tokens, learned, Cell(S, b, s), items, S, pad)
      {
        var index := s + S * b;
        FillCell(tokens, learned, items, S, pad, b, s);
        learned := learned[index := s];
        if s < |item.ids| { tokens := tokens[index := item.ids[s]]; }
        Coordinates(S, b, s);
      }
      Coordinates(S, b, 0);
    }
    assert items[..B] == items;
    ok := true;
    assert Cell(S, B, 0) == S * B by { CellZero(S, B); }
  }

  lemma CellZero(S: nat, b: nat)
    ensures Cell(S, b, 0) == S * b
  {
  }

  lemma NothingFilled(tokens: seq<int>, learned: seq<nat>, items: seq<Item>, S: nat, pad: int)
    requires S > 0 && |tokens| == |learned| == S * |items| && forall i | 0 <= i < |tokens| :: tokens[i] == pad
    ensures Filled(tokens, learned, Cell(S, 0, 0), items, S, pad)
  {
    CellZero(S, 0);
  }

  // Writing cell (b, s) extends what is filled by one.
  lemma FillCell(tokens: seq<int>, learned: seq<nat>, items: seq<Item>, S: nat, pad: int, b: nat, s: nat)
    requires S > 0 && b < |items| && s < S && Filled(tokens, learned, Cell(S, b, s), items, S, pad)
    ensures Cell(S, b, s) == s + S * b < |tokens| == |learned|
    ensures var (i, ids) := (Cell(S, b, s), items[b].ids);
      Filled(if s < |ids| then tokens[i := ids[s]] else tokens, learned[i := s], i + 1, items, S, pad)
  {
    Coordinates(S, b, s);
    CellBelow(S, |items|, b, s);
    hide RowOf, ColOf;
  }

  lemma TokensGrow(items: seq<Item>, b: nat)
    requires b < |items|
    ensures Tokens(items[..b + 1]) == Tokens(items[..b]) + |items[b].ids|
    ensures Packed(items[..b + 1]) == Packed(items[..b]) + items[b].ids
    ensures PackedPositions(items[..b + 1]) == PackedPositions(items[..b]) + Ramp(|items[b].ids|)
  {
    assert items[..b + 1][..b] == items[..b];
  }

  method Pack(items: seq<Item>)
    returns (ok: bool, tokens: seq<int>, positions: seq<nat>, offsets: seq<nat>, total: nat)
    ensures ok <==> Tokens(items) <= INT_MAX
    ensures ok ==> tokens == Packed(items) && positions == PackedPositions(items) && total == Tokens(items)
    ensures ok ==> |offsets| == |items| + 1 && forall b | 0 <= b <= |items| :: offsets[b] == Tokens(items[..b])
  {
    hide Packed, PackedPositions, Tokens;
    var B := |items|;
    offsets, tokens, positions := seq(B + 1, _ => 0), [], [];
    var cursor := 0;
    EmptyPack(items);
    for b := 0 to B
      invariant |offsets| == B + 1 && forall b' | 0 <= b' < b :: offsets[b'] == Tokens(items[..b'])
      invariant cursor == Tokens(items[..b]) <= INT_MAX
      invariant tokens == Packed(items[..b]) && positions == PackedPositions(items[..b])
    {
      offsets := offsets[b := cursor];
      var item := items[b];
      for s := 0 to |item.ids|
        invariant tokens == Packed(items[..b]) + item.ids[..s]
        invariant positions == PackedPositions(items[..b]) + Ramp(|item.ids|)[..s]
      {
        tokens, positions := tokens + [item.ids[s]], positions + [s];
      }
      assert item.ids[..|item.ids|] == item.ids && Ramp(|item.ids|)[..|item.ids|] == Ramp(|item.ids|);
      TokensGrow(items, b);
      if |item.ids| > INT_MAX - cursor {
        PackedPrefix(items, b + 1);
        return false, [], [], [], 0;
      }
      cursor := cursor + |item.ids|;
    }
    assert items[..B] == items;
    offsets := offsets[B := cursor];
    total, ok := cursor, true;
  }

  lemma EmptyPack(items: seq<Item>)
    ensures Packed(items[..0]) == [] && PackedPositions(items[..0]) == [] && Tokens(items[..0]) == 0
  {
  }

  // Slicing the packed view by its offsets gives back each unpadded row.
  lemma PackedSlice(items: seq<Item>, b: nat)
    requires b < |items|
    ensures Tokens(items[..b]) + |items[b].ids| == Tokens(items[..b + 1]) <= Tokens(items)
    ensures |Packed(items)| == |PackedPositions(items)| == Tokens(items)
    ensures Packed(items)[Tokens(items[..b])..Tokens(items[..b + 1])] == items[b].ids
    ensures PackedPositions(items)[Tokens(items[..b])..Tokens(items[..b + 1])] == Ramp(|items[b].ids|)
  {
    hide Packed, PackedPositions, Tokens;
    TokensGrow(items, b);
    PackedSize(items);
    PackedSize(items[..b]);
    PackedPrefix(items, b + 1);
    var from, to := Tokens(items[..b]), Tokens(items[..b + 1]);
    assert Packed(items)[from..to] == Packed(items)[..to][from..];
    assert PackedPositions(items)[from..to] == PackedPositions(items)[..to][from..];
  }

  lemma {:induction false} PackedPrefix(items: seq<Item>, b: nat)
    requires b <= |items|
    ensures Tokens(items[..b]) <= Tokens(items) == |Packed(items)| == |PackedPositions(items)|
    ensures Packed(items)[..Tokens(items[..b])] == Packed(items[..b])
    ensures PackedPositions(items)[..Tokens(items[..b])] == PackedPositions(items[..b])
    decreases |items| - b
  {
    hide Packed, PackedPositions, Tokens;
    PackedSize(items);
    PackedSize(items[..b]);
    if b < |items| {
      TokensGrow(items, b);
      PackedPrefix(items, b + 1);
      var from, to := Tokens(items[..b]), Tokens(items[..b + 1]);
      assert Packed(items)[..from] == Packed(items)[..to][..from];
      assert PackedPositions(items)[..from] == PackedPositions(items)[..to][..from];
    } else {
      assert items[..b] == items;
    }
  }

  lemma {:induction false} PackedSize(items: seq<Item>)
    ensures |Packed(items)| == |PackedPositions(items)| == Tokens(items)
  {
    if items != [] { PackedSize(items[..|items| - 1]); }
  }

  // ---- Masks of a padded sub-batch ----

  function Entry(items: seq<Item>, b: nat, k: nat): MaskEntry {
    if b < |items| && k < |items[b].ids| then Zero else NegInf
  }

  function Flag(items: seq<Item>, b: nat, s: nat): real {
    if b < |items| && s < |items[b].ids| then 1.0 else 0.0
  }

  ghost predicate MaskFilled(mask: seq<MaskEntry>, n: nat, items: seq<Item>, S: nat)
    requires S > 0
  {
    |mask| == S * (S * |items|) && n <= |mask|
    && forall i | 0 <= i < n :: mask[i] == Entry(items, RowOf(S, RowOf(S, i)), ColOf(S, i))
  }

  ghost predicate FlagsFilled(flags: seq<real>, n: nat, items: seq<Item>, S: nat)
    requires S > 0
  {
    |flags| == S * |items| && n <= |flags| && forall i | 0 <= i < n :: flags[i] == Flag(items, RowOf(S, i), ColOf(S, i))
  }

  lemma FillEntry(mask: seq<MaskEntry>, items: seq<Item>, S: nat, b: nat, q: nat, k: nat)
    requires b < |items| && q < S && k < S && MaskFilled(mask, Cell(S, Cell(S, b, q), k), items, S)
    ensures Cell(S, Cell(S, b, q), k) == k + S * (q + S * b) < |mask|
    ensures MaskFilled(mask[k + S * (q + S * b) := if k < |items[b].ids| then Zero else NegInf],
                       Cell(S, Cell(S, b, q), k + 1), items, S)
  {
    Coordinates(S, b, q);
    CellBelow(S, |items|, b, q);
    Coordinates(S, Cell(S, b, q), k);
    CellBelow(S, S * |items|, Cell(S, b, q), k);
    hide RowOf, ColOf;
  }

  lemma FillFlag(flags: seq<real>, items: seq<Item>, S: nat, b: nat, s: nat)
    requires b < |items| && s < S && FlagsFilled(flags, Cell(S, b, s), items, S)
    ensures Cell(S, b, s) == s + S * b < |flags|
    ensures FlagsFilled(flags[s + S * b := if s < |items[b].ids| then 1.0 else 0.0], Cell(S, b, s + 1), items, S)
  {
    Coordinates(S, b, s);
    CellBelow(S, |items|, b, s);
    hide RowOf, ColOf;
  }

  method FillMasks(items: seq<Item>, S: nat)
    returns (ok: bool, mask: seq<MaskEntry>, flags: seq<real>, scale: seq<real>, lasts: seq<nat>)
    requires S > 0 && forall b | 0 <= b < |items| :: 0 < |items[b].ids| <= S
    ensures ok <==> LastsFit(items, S)
    ensures ok ==> MaskFilled(mask, S * (S * |items|), items, S) && FlagsFilled(flags, S * |items|, items, S)
    ensures ok ==>
      && |scale| == |lasts| == |items|
      && forall b | 0 <= b < |items| ::
           scale[b] == 1.0 / |items[b].ids| as real && lasts[b] == Cell(S, b, |items[b].ids| - 1)
  {
    hide MaskFilled, FlagsFilled, RowOf, ColOf, Entry, Flag;
    var B := |items|;
    mask, flags := seq(S * (S * B), _ => NegInf), seq(S * B, _ => 0.0);
    scale, lasts := seq(B, _ => 0.0), seq(B, _ => 0);
    NoMasks(mask, flags, items, S);
    for b := 0 to B
      invariant MaskFilled(mask, Cell(S, Cell(S, b, 0), 0), items, S) && FlagsFilled(flags, Cell(S, b, 0), items, S)
      invariant |scale| == |lasts| == B
      invariant forall b' | 0 <= b' < b :: scale[b'] == 1.0 / |items[b'].ids| as real
      invariant forall b' | 0 <= b' < b :: lasts[b'] == Cell(S, b', |items[b'].ids| - 1) && lasts[b'] <= INT_MAX
    {
      var length := |items[b].ids|;
      scale := scale[b := 1.0 / length as real];
      var flatLast := b * S + length - 1;
      assert flatLast == Cell(S, b, length - 1) && Cell(S, b, length) == flatLast + 1;
      if flatLast > INT_MAX { return false, [], [], [], []; }
      lasts := lasts[b := flatLast];
      flags := FillFlagRow(flags, items, S, b);
      mask := FillMaskRows(mask, items, S, b);
      Coordinates(S, b, 0);
    }
    assert forall b | 0 <= b < B :: Cell(S, b, |items[b].ids|) == Cell(S, b, |items[b].ids| - 1) + 1;
    CellZero(S, B);
    CellZero(S, Cell(S, B, 0));
    ok := true;
  }

  lemma NoMasks(mask: seq<MaskEntry>, flags: seq<real>, items: seq<Item>, S: nat)
    requires S > 0 && |mask| == S * (S * |items|) && |flags| == S * |items|
    ensures MaskFilled(mask, Cell(S, Cell(S, 0, 0), 0), items, S) && FlagsFilled(flags, Cell(S, 0, 0), items, S)
  {
    CellZero(S, 0);
  }

  method FillFlagRow(was: seq<real>, items: seq<Item>, S: nat, b: nat) returns (flags: seq<real>)
    requires S > 0 && b < |items| && FlagsFilled(was, Cell(S, b, 0), items, S)
    ensures FlagsFilled(flags, Cell(S, b + 1, 0), items, S)
  {
    hide FlagsFilled, RowOf, ColOf, Flag, Cell;
    flags := was;
    for s := 0 to S
      invariant FlagsFilled(flags, Cell(S, b, s), items, S)
    {
      FillFlag(flags, items, S, b, s);
      flags := flags[s + S * b := if s < |items[b].ids| then 1.0 else 0.0];
    }
    Coordinates(S, b, 0);
  }

  method FillMaskRows(was: seq<MaskEntry>, items: seq<Item>, S: nat, b: nat) returns (mask: seq<MaskEntry>)
    requires S > 0 && b < |items| && MaskFilled(was, Cell(S, Cell(S, b, 0), 0), items, S)
    ensures MaskFilled(mask, Cell(S, Cell(S, b + 1, 0), 0), items, S)
  {
    hide MaskFilled, RowOf, ColOf, Entry, Cell;
    mask := was;
    for q := 0 to S
      invariant MaskFilled(mask, Cell(S, Cell(S, b, q), 0), items, S)
    {
      for k := 0 to S
        invariant MaskFilled(mask, Cell(S, Cell(S, b, q), k), items, S)
      {
        FillEntry(mask, items, S, b, q, k);
        mask := mask[k + S * (q + S * b) := if k < |items[b].ids| then Zero else NegInf];
      }
      Coordinates(S, Cell(S, b, q), 0);
      Coordinates(S, b, q);
    }
    Coordinates(S, b, 0);
  }

  function Slice(plan: Plan, index: nat): (items: seq<Item>)
    requires plan.maxBatch > 0 && index < SubbatchCount(plan)
    ensures items != []
  {
    SubbatchBounds(plan, index);
    plan.items[Begin(plan, index)..End(plan, index)]
  }

  method Materialize(plan: Plan, index: nat, paddingId: int, vocabSize: int)
    returns (r: Result<MaterializedBatch, BatchError>)
    requires PlanOk(plan)
    ensures r == Err(OutOfRange) <==> plan.maxBatch == 0 || index >= SubbatchCount(plan)
    ensures plan.maxBatch > 0 && index < SubbatchCount(plan) ==>
      if vocabSize <= 0 then r == Err(NoVocabulary)
      else if Fits(Slice(plan, index)) then r.Ok? && Laid(r.value, Slice(plan, index), PadId(paddingId, vocabSize))
      else r == Err(TooLarge)
  {
    if plan.maxBatch == 0 || index >= SubbatchCount(plan) { return Err(OutOfRange); }
    if vocabSize <= 0 { return Err(NoVocabulary); }
    var pad := if paddingId < 0 || paddingId >= vocabSize then 0 else paddingId;
    var begin := index * plan.maxBatch;
    SubbatchBounds(plan, index);
    SliceShape(plan, index);
    hide Laid, Fits, RealRows;
    r := LayOut(plan.items[begin..Min(begin + plan.maxBatch, |plan.items|)], pad);
  }

  // Items as the plan cuts them: none empty, none longer than the last.
  ghost predicate RealRows(items: seq<Item>) {
    items != [] && forall b | 0 <= b < |items| :: 0 < |items[b].ids| <= |Last(items).ids|
  }

  method LayOut(items: seq<Item>, pad: int) returns (r: Result<MaterializedBatch, BatchError>)
    requires RealRows(items)
    ensures if Fits(items) then r.Ok? && Laid(r.value, items, pad) else r == Err(TooLarge)
  {
    hide Filled, MaskFilled, FlagsFilled, Tokens, Packed, PackedPositions, Grid, Masks, LastsFit, LengthsFit, Cell;
    var B, S := |items|, |Last(items).ids|;
    if B > INT64_MAX || S > INT64_MAX {
      if S > INT64_MAX { LongLast(items); }
      return Err(TooLarge);
    }
    if S * B > SIZE_MAX { return Err(TooLarge); }
    var ok, tokens, learned, originals, lengths, valid, padding := FillGrid(items, S, pad);
    if !ok { return Err(TooLarge); }
    var out := MaterializedBatch(S, B, |items[0].ids| != S, tokens, learned, Ramp(S), seq(S * B, _ => 0),
                     originals, lengths, valid, padding, [], [], [], 0, [], [], [], []);
    GridFilled(out, items, pad);
    if out.padded {
      var packs, packedTokens, positions, offsets, total := Pack(items);
      if !packs { return Err(TooLarge); }
      if S * S * B > SIZE_MAX { return Err(TooLarge); }
      var masks, mask, flags, scale, lasts := FillMasks(items, S);
      if !masks { return Err(TooLarge); }
      var plain := out;
      out := out.(packedTokens := packedTokens, packedPositions := positions, offsets := offsets, totalTokens := total,
                  mask := mask, validMask := flags, meanScale := scale, lastIndices := lasts);
      MasksFilled(out, items);
      assert Grid(out, items, pad) by { SameGrid(plain, out, items, pad); }
    }
    r := Ok(out);
  }

  lemma SameGrid(a: MaterializedBatch, b: MaterializedBatch, items: seq<Item>, pad: int)
    requires Grid(a, items, pad) && a.seqLen == b.seqLen
    requires a.tokenIds == b.tokenIds && a.learned == b.learned && a.rope == b.rope && a.typeIds == b.typeIds
    ensures Grid(b, items, pad)
  {
  }

  lemma LongLast(items: seq<Item>)
    requires items != [] && |Last(items).ids| > INT64_MAX
    ensures !LengthsFit(items)
  {
    assert |items[|items| - 1].ids| > INT_MAX;
  }

  lemma SliceShape(plan: Plan, index: nat)
    requires PlanOk(plan) && plan.maxBatch > 0 && index < SubbatchCount(plan)
    ensures RealRows(Slice(plan, index))
  {
    SubbatchBounds(plan, index);
  }

  lemma GridFilled(out: MaterializedBatch, items: seq<Item>, pad: int)
    requires out.seqLen > 0 && Filled(out.tokenIds, out.learned, out.seqLen * |items|, items, out.seqLen, pad)
    requires out.rope == Ramp(out.seqLen) && |out.typeIds| == out.seqLen * |items|
    requires forall i | 0 <= i < |out.typeIds| :: out.typeIds[i] == 0
    ensures Grid(out, items, pad)
  {
    var S := out.seqLen;
    hide Cell, RowOf, ColOf;
    forall b, s | 0 <= b < |items| && 0 <= s < S
      ensures Cell(S, b, s) < |out.tokenIds| && out.learned[Cell(S, b, s)] == s
      ensures out.tokenIds[Cell(S, b, s)] == TokenAt(items, pad, b, s)
    {
      Coordinates(S, b, s);
      CellBelow(S, |items|, b, s);
    }
  }

  lemma MasksFilled(out: MaterializedBatch, items: seq<Item>)
    requires out.seqLen > 0 && MaskFilled(out.mask, out.seqLen * (out.seqLen * |items|), items, out.seqLen)
    requires FlagsFilled(out.validMask, out.seqLen * |items|, items, out.seqLen)
    requires |out.meanScale| == |out.lastIndices| == |items|
    requires RealRows(items)
    requires forall b | 0 <= b < |items| :: out.meanScale[b] == 1.0 / |items[b].ids| as real
    requires forall b | 0 <= b < |items| :: out.lastIndices[b] == Cell(out.seqLen, b, |items[b].ids| - 1)
    ensures Masks(out, items)
  {
    var S := out.seqLen;
    hide MaskFilled, FlagsFilled, Cell;
    forall b, s | 0 <= b < |items| && 0 <= s < S
      ensures Cell(S, b, s) < |out.validMask| && out.validMask[Cell(S, b, s)] == Flag(items, b, s)
    {
      FlagAt(out.validMask, items, S, b, s);
    }
    forall b, q, k | 0 <= b < |items| && 0 <= q < S && 0 <= k < S
      ensures Cell(S, Cell(S, b, q), k) < |out.mask| && out.mask[Cell(S, Cell(S, b, q), k)] == Entry(items, b, k)
    {
      EntryAt(out.mask, items, S, b, q, k);
    }
    assert |out.mask| == S * (S * |items|) && |out.validMask| == S * |items| by {
      MaskSizes(out.mask, out.validMask, items, S);
    }
  }

  lemma MaskSizes(mask: seq<MaskEntry>, flags: seq<real>, items: seq<Item>, S: nat)
    requires S > 0 && MaskFilled(mask, S * (S * |items|), items, S) && FlagsFilled(flags, S * |items|, items, S)
    ensures |mask| == S * (S * |items|) && |flags| == S * |items|
  {
  }

  lemma FlagAt(flags: seq<real>, items: seq<Item>, S: nat, b: nat, s: nat)
    requires s < S && b < |items| && FlagsFilled(flags, S * |items|, items, S)
    ensures Cell(S, b, s) < |flags| && flags[Cell(S, b, s)] == Flag(items, b, s)
  {
    Coordinates(S, b, s);
    CellBelow(S, |items|, b, s);
    hide Cell, RowOf, ColOf;
  }

  lemma EntryAt(mask: seq<MaskEntry>, items: seq<Item>, S: nat, b: nat, q: nat, k: nat)
    requires q < S && k < S && b < |items| && MaskFilled(mask, S * (S * |items|), items, S)
    ensures Cell(S, Cell(S, b, q), k) < |mask| && mask[Cell(S, Cell(S, b, q), k)] == Entry(items, b, k)
  {
    Coordinates(S, b, q);
    CellBelow(S, |items|, b, q);
    Coordinates(S, Cell(S, b, q), k);
    CellBelow(S, S * |items|, Cell(S, b, q), k);
    hide Cell, RowOf, ColOf;
  }

  // LAST pooling reads each sentence's final real token.
  lemma LastIndexHits(out: MaterializedBatch, items: seq<Item>, pad: int, b: nat)
    requires Laid(out, items, pad) && out.padded && b < |items| && |items[b].ids| <= out.seqLen
    ensures out.lastIndices[b] < |out.tokenIds| && out.tokenIds[out.lastIndices[b]] == Last(items[b].ids)
  {
  }

  // How much of the plan the first n sub-batches cover.
  function Done(plan: Plan, n: nat): nat { Min(Begin(plan, n), |plan.items|) }

  lemma DoneNext(plan: Plan, n: nat)
    requires plan.maxBatch > 0
    ensures Done(plan, 0) == 0 && Done(plan, SubbatchCount(plan)) == |plan.items|
    ensures n < SubbatchCount(plan) ==> Done(plan, n) == Begin(plan, n) <= End(plan, n) == Done(plan, n + 1)
  {
    hide SubbatchCount;
    SubbatchBounds(plan, n);
    SubbatchBounds(plan, SubbatchCount(plan));
  }

  lemma SliceOk(plan: Plan, n: nat)
    requires PlanOk(plan) && plan.maxBatch > 0 && n < SubbatchCount(plan)
    ensures RealRows(Slice(plan, n)) && ByLength(Slice(plan, n))
    ensures 0 <= Begin(plan, n) <= End(plan, n) <= |plan.items|
    ensures Slice(plan, n) == plan.items[Begin(plan, n)..End(plan, n)]
  {
    SubbatchBounds(plan, n);
    SliceShape(plan, n);
  }

  // ---- Padding stays in the vocabulary ----

  lemma PadInVocabulary(paddingId: int, vocabSize: int)
    requires vocabSize > 0
    ensures 0 <= PadId(paddingId, vocabSize) < vocabSize
    ensures 0 <= paddingId < vocabSize ==> PadId(paddingId, vocabSize) == paddingId
  {
  }
}
