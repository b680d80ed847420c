// A loaded tokenizer loses nothing: with a newly written cache and room enough, the ids
// between prefix and suffix decode to the normalized text.
module Lossless {
  import opened Prelude
  import opened NaiveBpe
  import opened MergeRecords
  import opened DiskMergeIndex
  import opened SpmBpe
  import opened Tokenizer
  import MergeCache

  // A merge line that takes no byte token and makes none.
  ghost predicate LinePlain(tokens: seq<Piece>, line: Piece) {
    match Resolve(tokens, line)
    case None => true
    case Some(r) =>
      && ParseByteToken(tokens[r.left]) == None && ParseByteToken(tokens[r.right]) == None
      && ParseByteToken(tokens[r.merged]) == None
  }

  ghost predicate LinesPlain(tokens: seq<Piece>, merges: seq<Piece>) {
    forall i | 0 <= i < |merges| :: LinePlain(tokens, merges[i])
  }

  lemma CreatedRulesPlain(index: Index, tokens: seq<Piece>, merges: seq<Piece>)
    requires index.Valid() && |tokens| <= INT_MAX && LinesPlain(tokens, merges)
    requires forall key: nat :: MergeCache.AnswersMerges(index.Spec(key), tokens, merges, key)
    ensures RulesPlain(tokens, IndexRules(index))
  {
    hide IndexRules, Index.Valid, Index.Spec, PairKey, MergeCache.AnswersMerges, ParseByteToken, LinesPlain;
    forall l: nat, r: nat | l < |tokens| && r < |tokens| && PairKey(l, r) in IndexRules(index)
      ensures ParseByteToken(tokens[l]) == None && ParseByteToken(tokens[r]) == None
      ensures 0 <= IndexRules(index)[PairKey(l, r)].merged < |tokens|
      ensures ParseByteToken(tokens[IndexRules(index)[PairKey(l, r)].merged]) == None
    {
      RuleOfSpec(index, PairKey(l, r));
      AnswerPlain(index.Spec(PairKey(l, r)), tokens, merges, l, r);
    }
  }

  lemma AnswerPlain(answer: Option<Rule>, tokens: seq<Piece>, merges: seq<Piece>, l: nat, r: nat)
    requires l < |tokens| && r < |tokens| && |tokens| <= INT_MAX && LinesPlain(tokens, merges)
    requires answer.Some? && MergeCache.AnswersMerges(answer, tokens, merges, PairKey(l, r))
    ensures ParseByteToken(tokens[l]) == None && ParseByteToken(tokens[r]) == None
    ensures 0 <= answer.value.merged < |tokens| && ParseByteToken(tokens[answer.value.merged]) == None
  {
    hide Resolve, PairKey, ParseByteToken;
    assert LinePlain(tokens, merges[answer.value.rank]);
    var resolved := Resolve(tokens, merges[answer.value.rank]).value;
    KeyOfPair(resolved.left, resolved.right, l, r);
  }

  // A text has no more seeds than bytes, and merging only shortens them.
  lemma {:induction false} SeedsShort(v: Vocabulary, s: Piece)
    requires |v.byteId| == 256
    ensures |Seeds(v, s)| <= |s|
  {
    hide Utf8Len;
    if s != [] { SeedsShort(v, s[CharLength(s)..]); }
  }

  lemma {:induction false} NaiveShort(ids: seq<int>, rules: Rules)
    ensures |Naive(ids, rules)| <= |ids|
    decreases |ids|
  {
    var best := BestFrom(ids, rules, 0);
    if best.Some? { NaiveShort(MergeAt(ids, rules, best.value), rules); }
  }

  // A limit with a place for every byte truncates nothing, and nothing is lost.
  lemma NothingLost(v: Vocabulary, rules: Rules, s: Piece, budget: int)
    requires Usable(v) && |v.byteId| == 256 && Representable(v, s) && |s| <= budget
    requires RulesConcatenate(v.tokens, rules) && RulesPlain(v.tokens, rules)
    ensures Decodes(v, Take(Naive(Seeds(v, s), rules), budget), s)
  {
    hide Usable, Seeds, Text, Representable, RulesConcatenate, RulesPlain, Naive, DecodedAll;
    var ids := Naive(Seeds(v, s), rules);
    SeedsShort(v, s);
    NaiveShort(Seeds(v, s), rules);
    ByteRoundTrip(v, rules, s);
    assert Take(ids, budget) == ids;
  }

  // The ids spell the text, byte tokens standing for their bytes.
  ghost predicate Decodes(v: Vocabulary, ids: seq<int>, text: Piece) {
    (forall i | 0 <= i < |ids| :: 0 <= ids[i] < |v.tokens|) && Text(DecodedAll(v.tokens), ids) == text
  }

  // What stands between prefix and suffix.
  function Middle(v: Vocabulary, ids: seq<int>): seq<int>
    requires |Wrapper(v.prefix)| + |Wrapper(v.suffix)| <= |ids|
  {
    ids[|Wrapper(v.prefix)|..|ids| - |Wrapper(v.suffix)|]
  }

  // Encode with a newly loaded tokenizer: unless a page read fails, the text comes back.
  method EncodeLossless(t: SpmBpeTokenizer, ghost merges: seq<Piece>, text: Piece, override: int, disk: nat -> Disk)
    returns (r: Result<seq<int>, EncodeError>)
    requires t.Valid() && Honest(t.index, disk) && NewlyWritten(t, merges) && LinesPlain(t.v.tokens, merges)
    requires |t.v.byteId| == 256 && Representable(t.v, Normalize(text))
    requires |Normalize(text)| + t.Wrapped() <= Limit(t.maxSeqLen, override)
    modifies t.index`asked
    ensures r.Err? ==> SomeReadFailed(disk, t.index.asked - old(t.index.asked))
    ensures r.Ok? ==> |r.value| >= t.Wrapped() && Decodes(t.v, Middle(t.v, r.value), Normalize(text))
    ensures r.Ok? ==> r.value == Wrapper(t.v.prefix) + Middle(t.v, r.value) + Wrapper(t.v.suffix)
  {
    hide Usable, Seeds, Naive, Normalize, Representable, RulesConcatenate, RulesPlain, IndexRules, Index.Valid,
      Index.Spec, MergeCache.AnswersMerges, LinesPlain, Honest, Decodes, Limit;
    ghost var rules, budget := IndexRules(t.index), Limit(t.maxSeqLen, override) - t.Wrapped();
    CreatedRulesConcatenate(t.index, t.v.tokens, merges);
    CreatedRulesPlain(t.index, t.v.tokens, merges);
    NothingLost(t.v, rules, Normalize(text), budget);
    var pageReads;
    r, pageReads := t.Encode(text, override, disk);
    if r.Ok? { assert Middle(t.v, r.value) == Take(Naive(Seeds(t.v, Normalize(text)), rules), budget); }
  }
}
