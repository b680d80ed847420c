// Seeding, wrapping and truncation around the merge loop.
module Tokenizer {
  import opened Prelude
  import opened NaiveBpe
  import opened SymbolList
  import opened MergeFile
  import opened MergeRecords
  import opened DiskMergeIndex
  import opened SpmBpe
  import MergeCache
  import Sha256Spec

  const SPACE_MARKER: Piece := [0xE2, 0x96, 0x81]

  // ---- Characters ----

  // An invalid lead byte counts one, so that the scan always advances.
  function Utf8Len(c: byte): (n: nat)
    ensures 1 <= n <= 4
  {
    if c < 0x80 then 1
    else if c / 32 == 0x06 then 2
    else if c / 16 == 0x0E then 3
    else if c / 8 == 0x1E then 4
    else 1
  }

  predicate IsSingleCodepoint(piece: Piece) { piece != [] && Utf8Len(piece[0]) == |piece| }

  function HexDigit(c: byte): Option<nat> {
    if 48 <= c <= 57 then Some(c - 48)
    else if 65 <= c <= 70 then Some(c - 65 + 10)
    else if 97 <= c <= 102 then Some(c - 97 + 10)
    else None
  }

  // "<0xNN>"
  function ParseByteToken(piece: Piece): Option<byte> {
    if |piece| != 6 || piece[0] != 60 || piece[1] != 48 || piece[2] != 120 || piece[5] != 62 then None
    else
      var high, low := HexDigit(piece[3]), HexDigit(piece[4]);
      if high == None || low == None then None else
        var value := high.value * 16 + low.value;
        if value < 256 then Some(value) else None
  }

  // ---- Vocabulary ----

  // Ids: -1 where absent.
  datatype Vocabulary = Vocabulary(
    tokens: seq<Piece>, charIx: map<Piece, nat>, byteId: seq<int>, unk: int, pad: int, prefix: int, suffix: int)

  // What the model file says of special tokens.
  datatype SpecialTokens =
    SpecialTokens(bos: int, eos: int, pad: int, unk: int, suffix: int, addBos: bool, addEos: bool)

  // The first single-codepoint token of each character among the first `n` tokens.
  ghost predicate CharsIndexed(tokens: seq<Piece>, charIx: map<Piece, nat>, n: nat)
    requires n <= |tokens|
  {
    && (forall ch | ch in charIx :: charIx[ch] < n && tokens[charIx[ch]] == ch && ch !in tokens[..charIx[ch]])
    && (forall ch :: ch in charIx <==> IsSingleCodepoint(ch) && ch in tokens[..n])
  }

  ghost predicate NoByteToken(tokens: seq<Piece>, b: byte) {
    forall piece | piece in tokens :: ParseByteToken(piece) != Some(b)
  }

  // The last byte token of each byte among the first `n` tokens.
  ghost predicate BytesIndexed(tokens: seq<Piece>, byteId: seq<int>, n: nat)
    requires n <= |tokens|
  {
    |byteId| == 256 && forall b: byte :: ByteIndexed(tokens, byteId[b], n, b)
  }

  ghost predicate ByteIndexed(tokens: seq<Piece>, id: int, n: nat, b: byte)
    requires n <= |tokens|
  {
    && -1 <= id < n
    && if id < 0 then NoByteToken(tokens[..n], b)
       else ParseByteToken(tokens[id]) == Some(b) && NoByteToken(tokens[id + 1..n], b)
  }

  predicate OptionalId(id: int, size: nat) { -1 <= id < size }

  // Every character can be represented.
  ghost predicate Usable(v: Vocabulary) {
    && CharsIndexed(v.tokens, v.charIx, |v.tokens|) && BytesIndexed(v.tokens, v.byteId, |v.tokens|)
    && OptionalId(v.unk, |v.tokens|) && OptionalId(v.pad, |v.tokens|)
    && OptionalId(v.prefix, |v.tokens|) && OptionalId(v.suffix, |v.tokens|)
    && (v.unk >= 0 || forall b: byte :: v.byteId[b] >= 0)
  }

  datatype VocabularyError = IdOutsideVocabulary | Undecodable

  method IndexVocabulary(tokens: seq<Piece>) returns (charIx: map<Piece, nat>, byteId: seq<int>)
    ensures CharsIndexed(tokens, charIx, |tokens|) && BytesIndexed(tokens, byteId, |tokens|)
  {
    hide ParseByteToken, IsSingleCodepoint, CharsIndexed, BytesIndexed;
    charIx, byteId := map[], seq(256, _ => -1);
    NothingIndexed(tokens);
    for i := 0 to |tokens|
      invariant CharsIndexed(tokens, charIx, i) && BytesIndexed(tokens, byteId, i) && |byteId| == 256
    {
      CharsNext(tokens, charIx, i);
      BytesNext(tokens, byteId, i);
      var b := ParseByteToken(tokens[i]);
      if b.Some? { byteId := byteId[b.value := i]; }
      if IsSingleCodepoint(tokens[i]) && tokens[i] !in charIx { charIx := charIx[tokens[i] := i]; }
    }
  }

  lemma NothingIndexed(tokens: seq<Piece>)
    ensures CharsIndexed(tokens, map[], 0) && BytesIndexed(tokens, seq(256, _ => -1), 0)
  {
  }

  lemma CharsNext(tokens: seq<Piece>, charIx: map<Piece, nat>, i: nat)
    requires i < |tokens| && CharsIndexed(tokens, charIx, i)
    ensures CharsIndexed(tokens,
      if IsSingleCodepoint(tokens[i]) && tokens[i] !in charIx then charIx[tokens[i] := i] else charIx, i + 1)
  {
    hide IsSingleCodepoint;
    assert tokens[..i + 1] == tokens[..i] + [tokens[i]];
  }

  lemma BytesNext(tokens: seq<Piece>, byteId: seq<int>, i: nat)
    requires i < |tokens| && BytesIndexed(tokens, byteId, i)
    ensures var b := ParseByteToken(tokens[i]);
      BytesIndexed(tokens, if b.Some? then byteId[b.value := i] else byteId, i + 1)
  {
    hide ParseByteToken, ByteIndexed;
    forall b: byte
      ensures ByteIndexed(tokens, if ParseByteToken(tokens[i]) == Some(b) then i else byteId[b], i + 1, b)
    {
      ByteNext(tokens, byteId[b], i, b);
    }
  }

  lemma ByteNext(tokens: seq<Piece>, id: int, i: nat, b: byte)
    requires i < |tokens| && ByteIndexed(tokens, id, i, b)
    ensures ByteIndexed(tokens, if ParseByteToken(tokens[i]) == Some(b) then i else id, i + 1, b)
  {
    hide ParseByteToken, NoByteToken;
    var from := if id < 0 then 0 else id + 1;
    if ParseByteToken(tokens[i]) == Some(b) {
      NoneInNothing(tokens[i + 1..i + 1], b);
    } else {
      NoneNext(tokens[from..i], tokens[i], b);
      assert tokens[from..i + 1] == tokens[from..i] + [tokens[i]];
      assert tokens[..i] == tokens[0..i] && tokens[..i + 1] == tokens[0..i + 1];
    }
  }

  lemma NoneInNothing(tokens: seq<Piece>, b: byte)
    requires tokens == []
    ensures NoByteToken(tokens, b)
  {
  }

  lemma NoneNext(tokens: seq<Piece>, piece: Piece, b: byte)
    ensures NoByteToken(tokens + [piece], b) <==> NoByteToken(tokens, b) && ParseByteToken(piece) != Some(b)
  {
    hide ParseByteToken;
    if NoByteToken(tokens + [piece], b) {
      forall p | p in tokens ensures ParseByteToken(p) != Some(b) { assert p in tokens + [piece]; }
      assert piece in tokens + [piece];
    }
  }

  ghost predicate SpecialOk(special: SpecialTokens, size: nat) {
    && OptionalId(special.bos, size) && OptionalId(special.eos, size) && OptionalId(special.pad, size)
    && OptionalId(special.unk, size) && OptionalId(special.suffix, size)
  }

  // Some byte has neither a token nor an unknown token to stand for it.
  ghost predicate SomeUndecodable(tokens: seq<Piece>, special: SpecialTokens) {
    special.unk < 0 && exists b: byte :: NoByteToken(tokens, b)
  }

  // A recorded suffix wins over the end-of-sequence flag.
  function PrefixOf(special: SpecialTokens): int { if special.addBos && special.bos >= 0 then special.bos else -1 }

  function SuffixOf(special: SpecialTokens): int {
    if special.suffix >= 0 then special.suffix
    else if special.addEos && special.eos >= 0 then special.eos
    else -1
  }

  // The loader's scan of the vocabulary, its range checks and its completeness check.
  method BuildVocabulary(tokens: seq<Piece>, special: SpecialTokens) returns (r: Result<Vocabulary, VocabularyError>)
    ensures r.Ok? <==> SpecialOk(special, |tokens|) && !SomeUndecodable(tokens, special)
    ensures r.Ok? ==>
      Usable(r.value) && r.value.tokens == tokens && r.value.unk == special.unk && r.value.pad == special.pad
    ensures r.Ok? ==> r.value.prefix == PrefixOf(special) && r.value.suffix == SuffixOf(special)
    ensures r == Err(IdOutsideVocabulary) <==> !SpecialOk(special, |tokens|)
  {
    hide ParseByteToken, IsSingleCodepoint;
    var charIx, byteId := IndexVocabulary(tokens);
    var size := |tokens|;
    if !OptionalId(special.bos, size) || !OptionalId(special.eos, size) || !OptionalId(special.pad, size)
       || !OptionalId(special.unk, size) || !OptionalId(special.suffix, size) {
      return Err(IdOutsideVocabulary);
    }
    var prefix, suffix := -1, -1;
    if special.addBos && special.bos >= 0 { prefix := special.bos; }
    if special.suffix >= 0 {
      suffix := special.suffix;
    } else if special.addEos && special.eos >= 0 {
      suffix := special.eos;
    }
    var missing := exists b: byte | 0 <= b < 256 :: byteId[b] < 0;
    if missing && special.unk < 0 {
      ghost var b: byte :| byteId[b] < 0;
      assert tokens[..|tokens|] == tokens && NoByteToken(tokens, b);
      return Err(Undecodable);
    }
    BytesHaveTokens(tokens, byteId);
    r := Ok(Vocabulary(tokens, charIx, byteId, special.unk, special.pad, prefix, suffix));
  }

  // Every byte that has an id has a token.
  lemma BytesHaveTokens(tokens: seq<Piece>, byteId: seq<int>)
    requires BytesIndexed(tokens, byteId, |tokens|)
    ensures forall b: byte | byteId[b] >= 0 :: !NoByteToken(tokens, b)
  {
    hide ParseByteToken;
    forall b: byte | byteId[b] >= 0 ensures !NoByteToken(tokens, b) { assert tokens[byteId[b]] in tokens; }
  }

  // ---- Seeding ----

  // The ids of one character: its own, or one per byte.
  function CharIds(v: Vocabulary, ch: Piece): (ids: seq<int>)
    requires |v.byteId| == 256
  {
    if ch in v.charIx then [v.charIx[ch]]
    else seq(|ch|, i requires 0 <= i < |ch| => if v.byteId[ch[i]] >= 0 then v.byteId[ch[i]] else v.unk)
  }

  function CharLength(s: Piece): (n: nat)
    requires s != []
    ensures 1 <= n <= |s|
  {
    Min(Utf8Len(s[0]), |s|)
  }

  function Seeds(v: Vocabulary, s: Piece): (ids: seq<int>)
    requires |v.byteId| == 256
  {
    if s == [] then [] else CharIds(v, s[..CharLength(s)]) + Seeds(v, s[CharLength(s)..])
  }

  lemma {:induction false} SeedsInVocabulary(v: Vocabulary, s: Piece)
    requires Usable(v)
    ensures forall i | 0 <= i < |Seeds(v, s)| :: 0 <= Seeds(v, s)[i] < |v.tokens|
    ensures s != [] ==> Seeds(v, s) != []
  {
    hide ParseByteToken, IsSingleCodepoint, Utf8Len;
    if s != [] {
      SeedsInVocabulary(v, s[CharLength(s)..]);
    }
  }

  method SeedIds(v: Vocabulary, s: Piece) returns (ids: seq<int>)
    requires |v.byteId| == 256
    ensures ids == Seeds(v, s)
  {
    hide Utf8Len, Seeds, CharIds;
    ids := [];
    var i := 0;
    while i < |s|
      invariant 0 <= i <= |s| && ids + Seeds(v, s[i..]) == Seeds(v, s)
    {
      var length := Min(Utf8Len(s[i]), |s| - i);
      SeedsFront(v, s, i, length);
      ids := ids + CharIds(v, s[i..i + length]);
      i := i + length;
    }
    SeedsEmpty(v, s[i..]);
  }

  lemma SeedsFront(v: Vocabulary, s: Piece, i: nat, length: nat)
    requires |v.byteId| == 256 && i < |s| && length == Min(Utf8Len(s[i]), |s| - i)
    ensures Seeds(v, s[i..]) == CharIds(v, s[i..i + length]) + Seeds(v, s[i + length..])
  {
    hide CharIds, Utf8Len;
    assert s[i..][..length] == s[i..i + length] && s[i..][length..] == s[i + length..];
  }

  lemma SeedsEmpty(v: Vocabulary, s: Piece)
    requires |v.byteId| == 256 && s == []
    ensures Seeds(v, s) == []
  {
  }

  method LinkSymbols(ids: seq<int>) returns (syms: array<Symbol>)
    requires ids != [] && forall i | 0 <= i < |ids| :: ids[i] >= 0
    ensures fresh(syms) && syms.Length == |ids| && Linked(syms[..], Upto(syms.Length))
    ensures Ids(syms[..], Upto(syms.Length)) == ids
  {
    var n := |ids|;
    syms := new Symbol[n](k requires 0 <= k < n => Symbol(ids[k], 0, 0));
    for k := 0 to n
      invariant forall j | 0 <= j < n :: syms[j].id == ids[j]
      invariant forall j | 0 <= j < k :: syms[j].prev == j - 1 && syms[j].next == if j + 1 < n then j + 1 else -1
    {
      syms[k] := Symbol(syms[k].id, k - 1, if k + 1 < n then k + 1 else -1);
    }
    ChainIsLinked(syms[..]);
  }

  lemma TableSize(v: Vocabulary)
    requires Usable(v)
    ensures |v.byteId| == 256
  {
  }

  // ---- Merging and emitting ----

  function Take(ids: seq<int>, budget: int): seq<int> {
    if budget <= 0 then [] else ids[..Min(budget, |ids|)]
  }

  // Append to `out` at most `budget` ids of the fully merged text.
  method Bpe(v: Vocabulary, index: Index, s: Piece, budget: int, out: seq<int>, disk: nat -> Disk)
    returns (r: Result<seq<int>, Error>, pageReads: nat)
    requires Usable(v) && index.Valid() && Honest(index, disk)
    modifies index`asked
    ensures r.Ok? ==> r.value == out + Take(Naive(Seeds(v, s), IndexRules(index)), budget)
    ensures r.Err? ==> SomeReadFailed(disk, index.asked - old(index.asked))
    // At most n - 1 lookups for the seeds and two per merge; a lookup reads at most a page.
    ensures old(index.asked) <= index.asked && pageReads <= index.asked - old(index.asked)
    ensures index.asked - old(index.asked) <= if budget <= 0 || s == [] then 0 else 3 * (|Seeds(v, s)| - 1)
  {
    hide IndexRules, Naive, Usable, Index.Valid, Honest, Linked, Seeds;
    TableSize(v);
    SeedsInVocabulary(v, s);
    if budget <= 0 || s == [] {
      if s == [] { NoSeeds(v, IndexRules(index)); }
      return Ok(out), 0;
    }
    var ids := SeedIds(v, s);
    var syms := LinkSymbols(ids);
    var scratch := new LookupScratch();
    var failure, live, count, merges := MergeAll(index, scratch, syms, disk);
    if failure.Some? { return Err(failure.value), scratch.pageReads; }
    var kept := Emit(syms, live, budget, out);
    r, pageReads := Ok(kept), scratch.pageReads;
  }

  lemma NoSeeds(v: Vocabulary, rules: Rules)
    requires |v.byteId| == 256
    ensures Naive(Seeds(v, []), rules) == []
  {
    NaiveDone([], rules);
  }

  // Walk the links from position 0. Linked symbols have ids that are not negative, so
  // the walk needs no guard against absorbed ones.
  method Emit(syms: array<Symbol>, ghost live: seq<int>, budget: int, out: seq<int>) returns (kept: seq<int>)
    requires Linked(syms[..], live) && budget > 0
    ensures kept == out + Take(Ids(syms[..], live), budget)
  {
    kept := out;
    var produced, i := 0, 0;
    ghost var ids := Ids(syms[..], live);
    while i >= 0 && produced < budget
      invariant 0 <= produced <= |live| && produced <= budget
      invariant i == if produced < |live| then live[produced] else -1
      invariant kept == out + ids[..produced]
      decreases |live| - produced
    {
      assert NodeOk(syms[..], live, produced);
      assert syms[..][i] == syms[i];
      var id := syms[i].id;
      kept := kept + [id];
      assert ids[..produced + 1] == ids[..produced] + [id];
      produced := produced + 1;
      i := syms[i].next;
    }
  }

  // ---- encode ----

  function Normalize(text: Piece): Piece {
    if text == [] then []
    else (if text[0] == SPACE then SPACE_MARKER else [text[0]]) + Normalize(text[1..])
  }

  method NormalizeText(text: Piece) returns (normalized: Piece)
    ensures normalized == Normalize(text)
  {
    normalized := [];
    for i := 0 to |text|
      invariant normalized + Normalize(text[i..]) == Normalize(text)
    {
      normalized := normalized + if text[i] == SPACE then SPACE_MARKER else [text[i]];
    }
  }

  datatype EncodeError = LimitBelowWrapper | LookupFailed(error: Error)

  function Wrapper(id: int): seq<int> { if id >= 0 then [id] else [] }

  function Limit(maxSeqLen: int, override: int): int { if override > 0 then override else maxSeqLen }

  class SpmBpeTokenizer {
    const v: Vocabulary
    const index: Index
    var maxSeqLen: int

    constructor (v: Vocabulary, index: Index)
      requires Usable(v) && index.Valid() && index.vocabSize == |v.tokens|
      ensures this.v == v && this.index == index && maxSeqLen == 512 && Valid()
    {
      this.v, this.index, this.maxSeqLen := v, index, 512;
    }

    ghost predicate Valid() {
      Usable(v) && index.Valid() && index.vocabSize == |v.tokens|
    }

    // How many ids wrap the text.
    function Wrapped(): nat { |Wrapper(v.prefix)| + |Wrapper(v.suffix)| }

    method SetMaxSeqLen(n: int)
      modifies this
      ensures maxSeqLen == n
    {
      maxSeqLen := n;
    }

    // Prefix, then as much of the full tokenization as fits, then suffix.
    method Encode(text: Piece, override: int, disk: nat -> Disk)
      returns (r: Result<seq<int>, EncodeError>, pageReads: nat)
      requires Valid() && Honest(index, disk)
      modifies index`asked
      ensures r == Err(LimitBelowWrapper) <==> Limit(maxSeqLen, override) < Wrapped()
      ensures r.Err? && r != Err(LimitBelowWrapper) ==> SomeReadFailed(disk, index.asked - old(index.asked))
      ensures old(index.asked) <= index.asked && pageReads <= index.asked - old(index.asked)
      ensures index.asked - old(index.asked) <= 3 * |Seeds(v, Normalize(text))|
      ensures r.Ok? ==> |r.value| <= Limit(maxSeqLen, override)
      ensures r.Ok? ==>
        r.value == Wrapper(v.prefix)
                   + Take(Naive(Seeds(v, Normalize(text)), IndexRules(index)), Limit(maxSeqLen, override) - Wrapped())
                   + Wrapper(v.suffix)
    {
      hide IndexRules, Naive, Usable, Index.Valid, Honest, Seeds, Normalize;
      var limit := if override > 0 then override else maxSeqLen;
      var reserved := (if v.prefix >= 0 then 1 else 0) + (if v.suffix >= 0 then 1 else 0);
      if limit < reserved { return Err(LimitBelowWrapper), 0; }
      var budget := Max(limit - reserved, 0);
      var normalized := NormalizeText(text);
      var ids := if v.prefix >= 0 then [v.prefix] else [];
      TableSize(v);
      var merged;
      merged, pageReads := Bpe(v, index, normalized, budget, ids, disk);
      if merged.Err? { return Err(LookupFailed(merged.error)), pageReads; }
      r := Ok(merged.value + if v.suffix >= 0 then [v.suffix] else []);
    }
  }

  // ---- Loading ----

  datatype LoadFailure =
    | BadSize
    | MergesFailed(load: MergeCache.LoadError)
    | VocabularyFailed(vocabulary: VocabularyError)

  // The tokenizer's index answers these merge lines, as a cache written for them does.
  ghost predicate NewlyWritten(t: SpmBpeTokenizer, merges: seq<Piece>)
    requires t.Valid()
  {
    |t.v.tokens| <= INT_MAX && forall key: nat :: MergeCache.AnswersMerges(t.index.Spec(key), t.v.tokens, merges, key)
  }

  // The whole loader: sizes, the merge index from the cache or newly written, the vocabulary.
  method FromGguf(tokens: seq<Piece>, merges: seq<Piece>, special: SpecialTokens, cached: Option<seq<byte>>)
    returns (r: Result<SpmBpeTokenizer, LoadFailure>, hit: bool)
    requires cached.Some? ==> |cached.value| < U64
    ensures r.Ok? <==>
      && 0 < |tokens| <= INT_MAX && |merges| <= INT_MAX
      && (hit || RawRecords(tokens, merges) != [])
      && SpecialOk(special, |tokens|) && !SomeUndecodable(tokens, special)
    ensures r.Ok? ==> fresh(r.value) && r.value.Valid() && r.value.v.tokens == tokens && r.value.maxSeqLen == 512
    ensures r.Ok? ==> r.value.v.prefix == PrefixOf(special) && r.value.v.suffix == SuffixOf(special)
    ensures r.Ok? && !hit ==> NewlyWritten(r.value, merges)
    ensures r.Ok? && !hit ==> RulesConcatenate(tokens, IndexRules(r.value.index))
  {
    hide RawRecords, Usable, SpecialOk, SomeUndecodable, Index.Valid, Index.Spec, MergeCache.AnswersMerges,
      RulesConcatenate, IndexRules, Accepted, MergeCache.DigestInput, Sha256Spec.Hash;
    hit := false;
    if tokens == [] || |tokens| > INT_MAX { return Err(BadSize), false; }
    var index;
    index, hit := MergeCache.Load(tokens, merges, cached);
    if index.Err? {
      assert index.error.TooLarge? || index.error.NoUsableRules?;
      return Err(MergesFailed(index.error)), hit;
    }
    var v := BuildVocabulary(tokens, special);
    if v.Err? { return Err(VocabularyFailed(v.error)), hit; }
    var tokenizer := new SpmBpeTokenizer(v.value, index.value);
    if !hit { CreatedRulesConcatenate(index.value, tokens, merges); }
    r := Ok(tokenizer);
  }

  // ---- What merging does to the text ----

  function Text(tokens: seq<Piece>, ids: seq<int>): Piece
    requires forall i | 0 <= i < |ids| :: 0 <= ids[i] < |tokens|
  {
    if ids == [] then [] else Text(tokens, ids[..|ids| - 1]) + tokens[Last(ids)]
  }

  // Every rule that can apply to two tokens yields their concatenation.
  ghost predicate RulesConcatenate(tokens: seq<Piece>, rules: Rules) {
    forall l: nat, r: nat | l < |tokens| && r < |tokens| && PairKey(l, r) in rules ::
      0 <= rules[PairKey(l, r)].merged < |tokens|
      && tokens[rules[PairKey(l, r)].merged] == tokens[l] + tokens[r]
  }

  lemma {:induction false} TextAppends(tokens: seq<Piece>, a: seq<int>, b: seq<int>)
    requires forall i | 0 <= i < |a| :: 0 <= a[i] < |tokens|
    requires forall i | 0 <= i < |b| :: 0 <= b[i] < |tokens|
    ensures Text(tokens, a + b) == Text(tokens, a) + Text(tokens, b)
  {
    if b == [] {
      assert a + b == a;
    } else {
      var init := b[..|b| - 1];
      assert (a + b)[..|a + b| - 1] == a + init && Last(a + b) == Last(b);
      TextAppends(tokens, a, init);
      assert Text(tokens, b) == Text(tokens, init) + tokens[Last(b)];
      assert Text(tokens, a + b) == Text(tokens, a + init) + tokens[Last(b)];
    }
  }

  lemma TextOfThree(tokens: seq<Piece>, a: seq<int>, x: seq<int>, b: seq<int>)
    requires forall i | 0 <= i < |a| :: 0 <= a[i] < |tokens|
    requires forall i | 0 <= i < |x| :: 0 <= x[i] < |tokens|
    requires forall i | 0 <= i < |b| :: 0 <= b[i] < |tokens|
    ensures Text(tokens, a + x + b) == Text(tokens, a) + Text(tokens, x) + Text(tokens, b)
  {
    hide Text;
    TextAppends(tokens, a, x);
    TextAppends(tokens, a + x, b);
  }

  lemma TextOfPair(tokens: seq<Piece>, l: int, r: int)
    requires 0 <= l < |tokens| && 0 <= r < |tokens|
    ensures Text(tokens, [l, r]) == tokens[l] + tokens[r] && Text(tokens, [l]) == tokens[l]
  {
    TextOfOne(tokens, l);
    TextOfOne(tokens, r);
    hide Text;
    assert [l, r] == [l] + [r];
    TextAppends(tokens, [l], [r]);
  }

  lemma TextOfOne(tokens: seq<Piece>, id: int)
    requires 0 <= id < |tokens|
    ensures Text(tokens, [id]) == tokens[id]
  {
    assert [id][..0] == [] && Text(tokens, []) == [];
  }

  lemma MergeKeepsText(tokens: seq<Piece>, ids: seq<int>, rules: Rules, k: nat)
    requires forall i | 0 <= i < |ids| :: 0 <= ids[i] < |tokens|
    requires RulesConcatenate(tokens, rules) && HasRule(ids, rules, k)
    ensures forall i | 0 <= i < |MergeAt(ids, rules, k)| :: 0 <= MergeAt(ids, rules, k)[i] < |tokens|
    ensures Text(tokens, MergeAt(ids, rules, k)) == Text(tokens, ids)
  {
    hide Text, PairKey;
    var merged := RuleAt(ids, rules, k).merged;
    var a, b := ids[..k], ids[k + 2..];
    assert tokens[merged] == tokens[ids[k]] + tokens[ids[k + 1]];
    assert ids == a + [ids[k], ids[k + 1]] + b;
    TextOfPair(tokens, ids[k], ids[k + 1]);
    TextOfOne(tokens, merged);
    TextOfThree(tokens, a, [merged], b);
    TextOfThree(tokens, a, [ids[k], ids[k + 1]], b);
  }

  // Merging never changes the concatenated piece text.
  lemma {:induction false} NaiveKeepsText(tokens: seq<Piece>, ids: seq<int>, rules: Rules)
    requires forall i | 0 <= i < |ids| :: 0 <= ids[i] < |tokens|
    requires RulesConcatenate(tokens, rules)
    ensures forall i | 0 <= i < |Naive(ids, rules)| :: 0 <= Naive(ids, rules)[i] < |tokens|
    ensures Text(tokens, Naive(ids, rules)) == Text(tokens, ids)
    decreases |ids|
  {
    hide Text;
    var best := BestFrom(ids, rules, 0);
    if best.Some? {
      MergeKeepsText(tokens, ids, rules, best.value);
      NaiveKeepsText(tokens, MergeAt(ids, rules, best.value), rules);
    }
  }

  // A created cache's rules are of that kind.
  lemma CreatedRulesConcatenate(index: Index, tokens: seq<Piece>, merges: seq<Piece>)
    requires index.Valid() && |tokens| <= INT_MAX
    requires forall key: nat :: MergeCache.AnswersMerges(index.Spec(key), tokens, merges, key)
    ensures RulesConcatenate(tokens, IndexRules(index))
  {
    hide IndexRules, Index.Valid, Index.Spec, PairKey, MergeCache.AnswersMerges;
    forall l: nat, r: nat | l < |tokens| && r < |tokens| && PairKey(l, r) in IndexRules(index)
      ensures 0 <= IndexRules(index)[PairKey(l, r)].merged < |tokens|
      ensures tokens[IndexRules(index)[PairKey(l, r)].merged] == tokens[l] + tokens[r]
    {
      RuleOfSpec(index, PairKey(l, r));
      AnswerConcatenates(index.Spec(PairKey(l, r)), tokens, merges, l, r);
    }
  }

  lemma RuleOfSpec(index: Index, key: nat)
    requires index.Valid()
    ensures key in IndexRules(index) <==> index.Spec(key).Some?
    ensures key in IndexRules(index) ==> IndexRules(index)[key] == index.Spec(key).value
  {
    hide Accepted, RulesOf, Scan;
    assert Accepted(index.file, index.digest, index.vocabSize);
    AcceptedLoads(index.file, index.digest, index.vocabSize);
    RulesScan(AllRecords(index.file), key);
  }

  lemma AcceptedLoads(file: seq<byte>, digest: seq<byte>, vocabSize: int)
    requires Accepted(file, digest, vocabSize)
    ensures Shaped(file) && forall i: nat | i < PageCount(file) :: Loadable(PageAt(file, i))
  {
  }

  lemma AnswerConcatenates(answer: Option<Rule>, tokens: seq<Piece>, merges: seq<Piece>, l: nat, r: nat)
    requires l < |tokens| && r < |tokens| && |tokens| <= INT_MAX
    requires answer.Some? && MergeCache.AnswersMerges(answer, tokens, merges, PairKey(l, r))
    ensures 0 <= answer.value.merged < |tokens| && tokens[answer.value.merged] == tokens[l] + tokens[r]
  {
    hide Resolve, PairKey;
    var resolved := Resolve(tokens, merges[answer.value.rank]).value;
    KeyOfPair(resolved.left, resolved.right, l, r);
  }

  // Ids that fit an int have their own key.
  // When every character is a token, the ids decode to the text they came from.
  lemma {:induction false} SeedsText(v: Vocabulary, s: Piece)
    requires Usable(v) && Covered(v, s)
    ensures forall i | 0 <= i < |Seeds(v, s)| :: 0 <= Seeds(v, s)[i] < |v.tokens|
    ensures Text(v.tokens, Seeds(v, s)) == s
  {
    hide Seeds, Text, CharLength, Usable;
    SeedsInVocabulary(v, s);
    UsableBytes(v);
    if s == [] {
      NoText(v);
    } else {
      var n := CharLength(s);
      SeedsText(v, s[n..]);
      FirstSeed(v, s);
      TextAppends(v.tokens, [v.charIx[s[..n]]], Seeds(v, s[n..]));
      assert s == s[..n] + s[n..];
    }
  }

  lemma UsableBytes(v: Vocabulary)
    requires Usable(v)
    ensures |v.byteId| == 256
  {
  }

  lemma NoText(v: Vocabulary)
    requires |v.byteId| == 256
    ensures Seeds(v, []) == [] && Text(v.tokens, []) == []
  {
  }

  lemma FirstSeed(v: Vocabulary, s: Piece)
    requires Usable(v) && s != [] && s[..CharLength(s)] in v.charIx
    ensures var (n, ch) := (CharLength(s), s[..CharLength(s)]);
      && v.charIx[ch] < |v.tokens| && Text(v.tokens, [v.charIx[ch]]) == ch
      && Seeds(v, s) == [v.charIx[ch]] + Seeds(v, s[n..])
  {
    hide ParseByteToken, IsSingleCodepoint, Utf8Len;
    var ids := [v.charIx[s[..CharLength(s)]]];
    assert ids[..0] == [];
  }

  ghost predicate Covered(v: Vocabulary, s: Piece) {
    s == [] || (s[..CharLength(s)] in v.charIx && Covered(v, s[CharLength(s)..]))
  }

  lemma RoundTrip(v: Vocabulary, rules: Rules, s: Piece)
    requires Usable(v) && Covered(v, s) && RulesConcatenate(v.tokens, rules)
    ensures var ids := Naive(Seeds(v, s), rules);
      (forall i | 0 <= i < |ids| :: 0 <= ids[i] < |v.tokens|) && Text(v.tokens, ids) == s
  {
    SeedsText(v, s);
    NaiveKeepsText(v.tokens, Seeds(v, s), rules);
  }

  // ---- Byte tokens ----

  // What a token stands for: its byte, or its own piece.
  function Decoded(piece: Piece): Piece {
    match ParseByteToken(piece) case Some(b) => [b] case None => piece
  }

  function DecodedAll(tokens: seq<Piece>): (pieces: seq<Piece>)
    ensures |pieces| == |tokens| && forall i | 0 <= i < |tokens| :: pieces[i] == Decoded(tokens[i])
  {
    seq(|tokens|, i requires 0 <= i < |tokens| => Decoded(tokens[i]))
  }

  // No rule takes a byte token, or makes one.
  ghost predicate RulesPlain(tokens: seq<Piece>, rules: Rules) {
    forall l: nat, r: nat | l < |tokens| && r < |tokens| && PairKey(l, r) in rules ::
      && ParseByteToken(tokens[l]) == None && ParseByteToken(tokens[r]) == None
      && 0 <= rules[PairKey(l, r)].merged < |tokens| && ParseByteToken(tokens[rules[PairKey(l, r)].merged]) == None
  }

  // Every character is a token, or each of its bytes has one.
  ghost predicate Representable(v: Vocabulary, s: Piece)
    requires |v.byteId| == 256
  {
    s == []
    || var ch := s[..CharLength(s)];
      (ch in v.charIx || forall i | 0 <= i < |ch| :: v.byteId[ch[i]] >= 0) && Representable(v, s[CharLength(s)..])
  }

  // With a token for every byte, that is every text there is.
  lemma {:induction false} EveryTextRepresentable(v: Vocabulary, s: Piece)
    requires |v.byteId| == 256 && forall b: byte :: v.byteId[b] >= 0
    ensures Representable(v, s)
    decreases |s|
  {
    hide Utf8Len;
    if s != [] { EveryTextRepresentable(v, s[CharLength(s)..]); }
  }

  lemma PlainConcatenates(tokens: seq<Piece>, rules: Rules)
    requires RulesConcatenate(tokens, rules) && RulesPlain(tokens, rules)
    ensures RulesConcatenate(DecodedAll(tokens), rules)
  {
    hide ParseByteToken, PairKey;
  }

  lemma CharDecodes(v: Vocabulary, ch: Piece)
    requires Usable(v) && ch in v.charIx
    ensures v.charIx[ch] < |v.tokens| && Decoded(v.tokens[v.charIx[ch]]) == ch
  {
    hide HexDigit;
  }

  lemma ByteDecodes(v: Vocabulary, b: byte)
    requires Usable(v) && v.byteId[b] >= 0
    ensures v.byteId[b] < |v.tokens| && Decoded(v.tokens[v.byteId[b]]) == [b]
  {
    hide ParseByteToken, CharsIndexed;
  }

  function ByteIds(v: Vocabulary, ch: Piece): (ids: seq<int>)
    requires |v.byteId| == 256
    ensures |ids| == |ch| && forall i | 0 <= i < |ch| :: ids[i] == v.byteId[ch[i]]
  {
    seq(|ch|, i requires 0 <= i < |ch| => v.byteId[ch[i]])
  }

  lemma {:induction false} BytesDecode(v: Vocabulary, ch: Piece)
    requires Usable(v) && |v.byteId| == 256 && forall i | 0 <= i < |ch| :: v.byteId[ch[i]] >= 0
    ensures forall i | 0 <= i < |ch| :: 0 <= ByteIds(v, ch)[i] < |v.tokens|
    ensures Text(DecodedAll(v.tokens), ByteIds(v, ch)) == ch
  {
    hide Usable, Decoded, DecodedAll, ByteIds;
    forall i | 0 <= i < |ch| ensures ByteIds(v, ch)[i] < |v.tokens| { ByteDecodes(v, ch[i]); }
    if ch != [] {
      var front := ch[..|ch| - 1];
      BytesDecode(v, front);
      ByteDecodes(v, Last(ch));
      assert ByteIds(v, ch)[..|ch| - 1] == ByteIds(v, front);
      assert ch == front + [Last(ch)];
    }
  }

  lemma CharIdsDecode(v: Vocabulary, ch: Piece)
    requires Usable(v) && (ch in v.charIx || forall i | 0 <= i < |ch| :: v.byteId[ch[i]] >= 0)
    ensures forall i | 0 <= i < |CharIds(v, ch)| :: 0 <= CharIds(v, ch)[i] < |v.tokens|
    ensures Text(DecodedAll(v.tokens), CharIds(v, ch)) == ch
  {
    hide Usable, Decoded, Text;
    UsableBytes(v);
    if ch in v.charIx {
      CharDecodes(v, ch);
      TextOfOne(DecodedAll(v.tokens), v.charIx[ch]);
    } else {
      BytesDecode(v, ch);
      assert CharIds(v, ch) == ByteIds(v, ch);
    }
  }

  lemma {:induction false} SeedsDecode(v: Vocabulary, s: Piece)
    requires Usable(v) && |v.byteId| == 256 && Representable(v, s)
    ensures forall i | 0 <= i < |Seeds(v, s)| :: 0 <= Seeds(v, s)[i] < |v.tokens|
    ensures Text(DecodedAll(v.tokens), Seeds(v, s)) == s
  {
    hide Usable, CharLength, CharIds, Decoded, Text;
    if s == [] {
      NoIdsNoText(DecodedAll(v.tokens));
    } else {
      var n := CharLength(s);
      CharIdsDecode(v, s[..n]);
      SeedsDecode(v, s[n..]);
      TextAppends(DecodedAll(v.tokens), CharIds(v, s[..n]), Seeds(v, s[n..]));
      assert s == s[..n] + s[n..];
    }
  }

  lemma NoIdsNoText(tokens: seq<Piece>)
    ensures Text(tokens, []) == []
  {
  }

  // Byte tokens decoded to their bytes, the ids of any representable text give it back.
  lemma ByteRoundTrip(v: Vocabulary, rules: Rules, s: Piece)
    requires Usable(v) && |v.byteId| == 256 && Representable(v, s)
    requires RulesConcatenate(v.tokens, rules) && RulesPlain(v.tokens, rules)
    ensures var ids := Naive(Seeds(v, s), rules);
      (forall i | 0 <= i < |ids| :: 0 <= ids[i] < |v.tokens|) && Text(DecodedAll(v.tokens), ids) == s
  {
    hide Usable, Seeds, Text, Representable, RulesConcatenate, RulesPlain, Decoded, Naive;
    PlainConcatenates(v.tokens, rules);
    SeedsDecode(v, s);
    NaiveKeepsText(DecodedAll(v.tokens), Seeds(v, s), rules);
  }
}
