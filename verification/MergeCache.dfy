// The loader: content address, reuse of a valid file, creation otherwise; and
// what every lookup in a created cache answers.
module MergeCache {
  import opened Prelude
  import opened Bytes
  import opened NaiveBpe
  import opened MergeFile
  import opened MergeRecords
  import opened DiskMergeIndex
  import CreateCache
  import OpenCache
  import Sha256
  import Sha256Spec

  // ---- What a created file answers ----

  // For every key, present or absent: the lowest merge line about these two tokens decides.
  ghost predicate AnswersLines(answer: Option<Rule>, tokens: seq<Piece>, merges: seq<Piece>, key: nat) {
    match answer
    case None => forall i: nat | i < |merges| :: !GivesKey(tokens, merges[i], key)
    case Some(rule) =>
      && 0 <= rule.rank < |merges|
      && (exists l: nat, r: nat, m: nat ::
            LineGives(tokens, merges[rule.rank], l, r, m) && PairKey(l, r) == key && rule.merged == m)
      && forall i: nat | i < rule.rank :: !GivesKey(tokens, merges[i], key)
  }

  ghost predicate GivesKey(tokens: seq<Piece>, line: Piece, key: nat) {
    exists l: nat, r: nat, m: nat :: LineGives(tokens, line, l, r, m) && PairKey(l, r) == key
  }

  lemma KeyOfLine(tokens: seq<Piece>, merges: seq<Piece>, i: nat, key: nat)
    requires i < |merges|
    ensures ResolvesTo(tokens, merges, i, key) <==> GivesKey(tokens, merges[i], key)
  {
    hide Resolve, LineGives, PairKey;
    if ResolvesTo(tokens, merges, i, key) {
      var r := Resolve(tokens, merges[i]).value;
      ResolveMeans(tokens, merges[i], r.left, r.right, r.merged);
    }
    if GivesKey(tokens, merges[i], key) {
      var l: nat, r: nat, m: nat :| LineGives(tokens, merges[i], l, r, m) && PairKey(l, r) == key;
      ResolveMeans(tokens, merges[i], l, r, m);
    }
  }

  lemma AnswersBoth(answer: Option<Rule>, tokens: seq<Piece>, merges: seq<Piece>, key: nat)
    requires AnswersMerges(answer, tokens, merges, key)
    ensures AnswersLines(answer, tokens, merges, key)
  {
    hide Resolve, LineGives, PairKey, GivesKey;
    forall i: nat | i < |merges| ensures ResolvesTo(tokens, merges, i, key) <==> GivesKey(tokens, merges[i], key) {
      KeyOfLine(tokens, merges, i, key);
    }
    if answer.Some? {
      var found := Resolve(tokens, merges[answer.value.rank]).value;
      ResolveMeans(tokens, merges[answer.value.rank], found.left, found.right, found.merged);
    }
  }

  // For every line about two tokens there is a rule for the pair, no later than the line,
  // and what it makes of them is the two put together.
  lemma LineAnswered(answer: Option<Rule>, tokens: seq<Piece>, merges: seq<Piece>, i: nat, l: nat, r: nat, m: nat)
    requires |tokens| <= INT_MAX && i < |merges| && LineGives(tokens, merges[i], l, r, m)
    requires AnswersLines(answer, tokens, merges, PairKey(l, r))
    ensures answer.Some? && 0 <= answer.value.rank <= i && answer.value.merged == m
    ensures tokens[m] == tokens[l] + tokens[r]
  {
    hide PairKey;
    assert GivesKey(tokens, merges[i], PairKey(l, r));
    if answer.Some? {
      var l': nat, r': nat, m': nat :| LineGives(tokens, merges[answer.value.rank], l', r', m')
        && PairKey(l', r') == PairKey(l, r) && answer.value.merged == m';
      KeyOfPair(l', r', l, r);
      SameFirst(tokens, m, m');
    }
  }

  lemma SameFirst(tokens: seq<Piece>, a: nat, b: nat)
    requires FirstId(tokens, a) && FirstId(tokens, b) && tokens[a] == tokens[b]
    ensures a == b
  {
    NotBefore(tokens, tokens[a], a, b);
    NotBefore(tokens, tokens[b], b, a);
  }

  lemma {:induction false} NoRecords(tokens: seq<Piece>, merges: seq<Piece>)
    ensures RawRecords(tokens, merges) == [] <==> forall i: nat | i < |merges| :: SaysNothing(tokens, merges[i])
  {
    hide Resolve, LineGives;
    if merges != [] {
      var init := merges[..|merges| - 1];
      NoRecords(tokens, init);
      assert forall i: nat | i < |init| :: init[i] == merges[i];
      var found := Resolve(tokens, Last(merges));
      if found.Some? {
        ResolveMeans(tokens, Last(merges), found.value.left, found.value.right, found.value.merged);
        assert !SaysNothing(tokens, merges[|merges| - 1]);
      } else {
        forall l: nat, r: nat, m: nat ensures !LineGives(tokens, Last(merges), l, r, m) {
          ResolveMeans(tokens, Last(merges), l, r, m);
        }
        assert SaysNothing(tokens, merges[|merges| - 1]);
        assert forall i: nat | i < |merges| :: i == |init| || merges[i] == init[i];
      }
    }
  }

  ghost predicate SaysNothing(tokens: seq<Piece>, line: Piece) {
    forall l: nat, r: nat, m: nat :: !LineGives(tokens, line, l, r, m)
  }

  // The same by what each line resolves to.
  ghost predicate AnswersMerges(answer: Option<Rule>, tokens: seq<Piece>, merges: seq<Piece>, key: nat) {
    match answer
    case None => forall i: nat :: !ResolvesTo(tokens, merges, i, key)
    case Some(rule) =>
      && rule.rank >= 0 && LowestRule(tokens, merges, rule.rank, key)
      && rule.merged == Resolve(tokens, merges[rule.rank]).value.merged
  }

  lemma CreatedAnswers(records: seq<Record>, tokens: seq<Piece>, merges: seq<Piece>, key: nat)
    requires CreateCache.FromMerges(records, tokens, merges)
    ensures AnswersMerges(Scan(records, key), tokens, merges, key)
  {
    hide Unique, Sort, Resolve;
    var raw := RawRecords(tokens, merges);
    RawAscends(tokens, merges);
    SortKeeps(raw);
    UniqueScans(Sort(raw), key);
    RawScans(tokens, merges, key);
  }

  // ---- The content address ----

  const TOKENS_TAG: seq<byte> :=
    [110, 97, 110, 111, 101, 109, 98, 101, 100, 45, 98, 112, 101, 45, 116, 111, 107, 101, 110, 115, 45, 118, 49]
  const MERGES_TAG: seq<byte> :=
    [110, 97, 110, 111, 101, 109, 98, 101, 100, 45, 98, 112, 101, 45, 109, 101, 114, 103, 101, 115, 45, 118, 49]

  // The tags and the file's mark, as text.
  lemma TagsSpell()
    ensures Spells(TOKENS_TAG, "nanoembed-bpe-tokens-v1") && Spells(MERGES_TAG, "nanoembed-bpe-merges-v1")
    ensures Spells(MAGIC[..7], "NEBPEI1") && MAGIC[7..] == [0]
  {
  }

  predicate Spells(bytes: seq<byte>, text: string) {
    |bytes| == |text| && forall i | 0 <= i < |text| :: bytes[i] == text[i] as int
  }

  function Items(pieces: seq<Piece>): seq<byte> {
    if pieces == [] then [] else Le(|pieces[0]|, 8) + pieces[0] + Items(pieces[1..])
  }

  function DigestInput(tokens: seq<Piece>, merges: seq<Piece>): seq<byte> {
    TOKENS_TAG + Le(|tokens|, 8) + Items(tokens) + MERGES_TAG + Le(|merges|, 8) + Items(merges)
  }

  predicate Countable(pieces: seq<Piece>) {
    |pieces| < U64 && forall i | 0 <= i < |pieces| :: |pieces[i]| < U64
  }

  lemma SamePrefix<T>(a: seq<T>, b: seq<T>, x: seq<T>, y: seq<T>)
    requires a + x == b + y && |a| == |b|
    ensures a == b && x == y
  {
    assert a == (a + x)[..|a|] && b == (b + y)[..|b|];
    assert x == (a + x)[|a|..] && y == (b + y)[|b|..];
  }

  lemma LeInjective(a: nat, b: nat)
    requires a < U64 && b < U64 && Le(a, 8) == Le(b, 8)
    ensures a == b
  {
    Widths();
    UnleLe(a, 8);
    UnleLe(b, 8);
  }

  lemma ItemsFront(pieces: seq<Piece>, x: seq<byte>)
    ensures Items(pieces) + x ==
      if pieces == [] then x else Le(|pieces[0]|, 8) + (pieces[0] + (Items(pieces[1..]) + x))
  {
    hide Le;
    if pieces != [] {
      var size, rest := Le(|pieces[0]|, 8), Items(pieces[1..]);
      assert Items(pieces) == size + pieces[0] + rest;
      hide Items;
      assert (size + pieces[0] + rest) + x == size + (pieces[0] + (rest + x));
    }
  }

  lemma {:induction false} ItemsInjective(a: seq<Piece>, b: seq<Piece>, x: seq<byte>, y: seq<byte>)
    requires Countable(a) && Countable(b) && |a| == |b|
    requires Items(a) + x == Items(b) + y
    ensures a == b && x == y
  {
    ItemsFront(a, x);
    ItemsFront(b, y);
    hide Items, Le;
    if a != [] {
      var restA, restB := Items(a[1..]) + x, Items(b[1..]) + y;
      SamePrefix(Le(|a[0]|, 8), Le(|b[0]|, 8), a[0] + restA, b[0] + restB);
      LeInjective(|a[0]|, |b[0]|);
      SamePrefix(a[0], b[0], restA, restB);
      ItemsInjective(a[1..], b[1..], x, y);
    }
  }

  // Different vocabularies or merge lists never feed the same bytes to the hash.
  lemma DigestInputInjective(t: seq<Piece>, m: seq<Piece>, t': seq<Piece>, m': seq<Piece>)
    requires Countable(t) && Countable(m) && Countable(t') && Countable(m')
    requires DigestInput(t, m) == DigestInput(t', m')
    ensures t == t' && m == m'
  {
    hide Items, Le;
    var tail, tail' := Le(|m|, 8) + Items(m), Le(|m'|, 8) + Items(m');
    var body, body' := Items(t) + (MERGES_TAG + tail), Items(t') + (MERGES_TAG + tail');
    assert DigestInput(t, m) == TOKENS_TAG + (Le(|t|, 8) + body);
    assert DigestInput(t', m') == TOKENS_TAG + (Le(|t'|, 8) + body');
    SamePrefix(TOKENS_TAG, TOKENS_TAG, Le(|t|, 8) + body, Le(|t'|, 8) + body');
    SamePrefix(Le(|t|, 8), Le(|t'|, 8), body, body');
    LeInjective(|t|, |t'|);
    ItemsInjective(t, t', MERGES_TAG + tail, MERGES_TAG + tail');
    SamePrefix(MERGES_TAG, MERGES_TAG, tail, tail');
    SamePrefix(Le(|m|, 8), Le(|m'|, 8), Items(m), Items(m'));
    LeInjective(|m|, |m'|);
    assert Items(m) + [] == Items(m) && Items(m') + [] == Items(m');
    ItemsInjective(m, m', [], []);
  }

  lemma FeedStep(fed: seq<byte>, pieces: seq<Piece>, i: nat)
    requires i < |pieces|
    ensures fed + Items(pieces[i..]) == fed + Le(|pieces[i]|, 8) + pieces[i] + Items(pieces[i + 1..])
  {
    assert pieces[i..][1..] == pieces[i + 1..];
  }

  method FeedPieces(hasher: Sha256.Hasher, pieces: seq<Piece>)
    requires hasher.Valid() && !hasher.finished
    modifies hasher, hasher.state, hasher.buffer
    ensures hasher.Valid() && !hasher.finished
    ensures hasher.message == old(hasher.message) + Le(|pieces|, 8) + Items(pieces)
  {
    hide Sha256.Hasher.Valid, Le, Items;
    var misuse := hasher.Update(Le(|pieces|, 8));
    ghost var start := hasher.message;
    for i := 0 to |pieces|
      invariant hasher.Valid() && !hasher.finished
      invariant hasher.message + Items(pieces[i..]) == start + Items(pieces)
    {
      ItemsFront(pieces[i..], []);
      ghost var before := hasher.message;
      misuse := hasher.Update(Le(|pieces[i]|, 8));
      misuse := hasher.Update(pieces[i]);
      FeedStep(before, pieces, i);
    }
    ItemsFront(pieces[|pieces|..], []);
  }

  method TokenizerDigest(tokens: seq<Piece>, merges: seq<Piece>) returns (digest: seq<byte>)
    ensures |digest| == 32 && digest == Sha256Spec.Hash(DigestInput(tokens, merges))
  {
    hide Sha256.Hasher.Valid, Le, Items, Sha256Spec.Hash;
    var hasher := new Sha256.Hasher();
    var misuse := hasher.Update(TOKENS_TAG);
    assert hasher.message == TOKENS_TAG;
    hide TOKENS_TAG, MERGES_TAG;
    FeedPieces(hasher, tokens);
    misuse := hasher.Update(MERGES_TAG);
    FeedPieces(hasher, merges);
    var r := hasher.Finish();
    digest := r.value;
  }

  // ---- Loading ----

  datatype LoadError = TooLarge | NoUsableRules

  // `cached` is the file found under the content address, if there is one.
  method Load(tokens: seq<Piece>, merges: seq<Piece>, cached: Option<seq<byte>>)
    returns (r: Result<Index, LoadError>, hit: bool)
    requires cached.Some? ==> |cached.value| < U64
    ensures r.Ok? ==> fresh(r.value) && r.value.Valid() && r.value.vocabSize == |tokens|
    ensures r.Ok? ==> r.value.digest == Sha256Spec.Hash(DigestInput(tokens, merges))
    ensures r == Err(TooLarge) <==> |tokens| > INT_MAX || |merges| > INT_MAX
    ensures hit <==>
      && |tokens| <= INT_MAX && |merges| <= INT_MAX
      && cached.Some? && Accepted(cached.value, Sha256Spec.Hash(DigestInput(tokens, merges)), |tokens|)
    ensures hit ==> r.Ok? && r.value.file == cached.value
    ensures r.Ok? && !hit ==> forall key: nat :: AnswersMerges(r.value.Spec(key), tokens, merges, key)
    ensures r.Ok? && !hit ==> forall key: nat :: AnswersLines(r.value.Spec(key), tokens, merges, key)
    ensures r == Err(NoUsableRules) <==>
      |tokens| <= INT_MAX && |merges| <= INT_MAX && !hit && RawRecords(tokens, merges) == []
    ensures r == Err(NoUsableRules) <==>
      && |tokens| <= INT_MAX && |merges| <= INT_MAX && !hit
      && forall i: nat | i < |merges| :: SaysNothing(tokens, merges[i])
  {
    hide Accepted, Sha256Spec.Hash, DigestInput, AnswersMerges, AnswersLines, RawRecords, SaysNothing;
    NoRecords(tokens, merges);
    hit := false;
    if |tokens| > INT_MAX || |merges| > INT_MAX { return Err(TooLarge), false; }
    var digest := TokenizerDigest(tokens, merges);
    if cached.Some? {
      var reused := OpenCache.OpenValidated(cached.value, digest, |tokens|);
      if reused.Ok? { return Ok(reused.value), true; }
    }
    var created := CreateCache.Create(tokens, merges, digest);
    if created.Err? { return Err(NoUsableRules), false; }
    var validated := OpenCache.OpenValidated(created.value, digest, |tokens|);
    CreateCache.AcceptedSize(created.value, digest, |tokens|);
    forall key: nat
      ensures AnswersMerges(validated.value.Spec(key), tokens, merges, key)
      ensures AnswersLines(validated.value.Spec(key), tokens, merges, key)
    {
      CreatedAnswers(AllRecords(created.value), tokens, merges, key);
      AnswersBoth(validated.value.Spec(key), tokens, merges, key);
    }
    r := Ok(validated.value);
  }
}
