// From the tokenizer's merge lines to the sorted, deduplicated record list.
module MergeRecords {
  import opened Prelude
  import opened NaiveBpe
  import opened MergeFile
  import Sorting

  type Piece = seq<byte>

  const SPACE: byte := 32

  // ---- What a merge line means ----

  // The first position of `x`.
  function IndexOf<T(==)>(s: seq<T>, x: T): (i: Option<nat>)
    ensures i == None <==> x !in s
    ensures i.Some? ==> i.value < |s| && s[i.value] == x && x !in s[..i.value]
  {
    if s == [] then None
    else
      var init := s[..|s| - 1];
      assert s == init + [Last(s)];
      var i := IndexOf(init, x);
      if i.Some? then assert init[..i.value] == s[..i.value]; i
      else if Last(s) == x then Some(|s| - 1)
      else None
  }

  datatype Resolved = Resolved(left: nat, right: nat, merged: nat)

  // A line "left right" is usable when both operands and their concatenation are tokens.
  function Resolve(tokens: seq<Piece>, line: Piece): (r: Option<Resolved>)
    ensures r.Some? ==>
      && r.value.left < |tokens| && r.value.right < |tokens| && r.value.merged < |tokens|
      && tokens[r.value.merged] == tokens[r.value.left] + tokens[r.value.right]
  {
    var at := IndexOf(line, SPACE);
    if at == None then None
    else
      var left := IndexOf(tokens, line[..at.value]);
      var right := IndexOf(tokens, line[at.value + 1..]);
      if left == None || right == None then None
      else
        var merged := IndexOf(tokens, line[..at.value] + line[at.value + 1..]);
        if merged == None then None else Some(Resolved(left.value, right.value, merged.value))
  }

  // What a line says, without looking anything up: two tokens, the first without a space,
  // with a space between them; a third token is the two put together. Ids are first ids.
  ghost predicate LineGives(tokens: seq<Piece>, line: Piece, left: nat, right: nat, merged: nat) {
    && FirstId(tokens, left) && FirstId(tokens, right) && FirstId(tokens, merged)
    && 32 !in tokens[left] && line == tokens[left] + [32] + tokens[right]
    && tokens[merged] == tokens[left] + tokens[right]
  }

  ghost predicate FirstId(tokens: seq<Piece>, id: nat) { id < |tokens| && tokens[id] !in tokens[..id] }

  lemma NotBefore<T>(s: seq<T>, x: T, i: nat, j: nat)
    requires i < |s| && x !in s[..i] && j < |s| && s[j] == x
    ensures i <= j
  {
  }

  lemma FirstIdIs<T>(s: seq<T>, x: T, i: nat)
    requires i < |s| && s[i] == x && x !in s[..i]
    ensures IndexOf(s, x) == Some(i)
  {
    hide IndexOf;
    var found := IndexOf(s, x).value;
    NotBefore(s, x, i, found);
    NotBefore(s, x, found, i);
  }

  lemma ResolveMeans(tokens: seq<Piece>, line: Piece, left: nat, right: nat, merged: nat)
    ensures Resolve(tokens, line) == Some(Resolved(left, right, merged))
       <==> LineGives(tokens, line, left, right, merged)
  {
    hide IndexOf;
    if LineGives(tokens, line, left, right, merged) {
      var l, r := tokens[left], tokens[right];
      assert line[..|l|] == l && line[|l| + 1..] == r && line[|l|] == 32;
      FirstIdIs(line, 32, |l|);
      FirstIdIs(tokens, l, left);
      FirstIdIs(tokens, r, right);
      FirstIdIs(tokens, l + r, merged);
    }
  }

  // A line of two such tokens resolves, if the two put together are a token.
  lemma LineResolves(tokens: seq<Piece>, l: Piece, r: Piece)
    requires 32 !in l && l in tokens && r in tokens && l + r in tokens
    ensures var found := Resolve(tokens, l + [32] + r);
      && found.Some? && LineGives(tokens, l + [32] + r, found.value.left, found.value.right, found.value.merged)
      && tokens[found.value.left] == l && tokens[found.value.right] == r
  {
    hide Resolve;
    var left, right, merged := IndexOf(tokens, l).value, IndexOf(tokens, r).value, IndexOf(tokens, l + r).value;
    ResolveMeans(tokens, l + [32] + r, left, right, merged);
  }

  ghost predicate ResolvesTo(tokens: seq<Piece>, merges: seq<Piece>, i: nat, key: nat) {
    && i < |merges|
    && var r := Resolve(tokens, merges[i]);
    && r.Some? && PairKey(r.value.left, r.value.right) == key
  }

  // Rule `i` is the first line that resolves to the pair.
  ghost predicate LowestRule(tokens: seq<Piece>, merges: seq<Piece>, i: nat, key: nat) {
    && ResolvesTo(tokens, merges, i, key)
    && forall j: nat | j < i :: !ResolvesTo(tokens, merges, j, key)
  }

  function RecordOf(r: Resolved, rank: nat): Record {
    Record(PairKey(r.left, r.right), rank, r.merged)
  }

  function RawRecords(tokens: seq<Piece>, merges: seq<Piece>): (records: seq<Record>)
    ensures |records| <= |merges|
    ensures forall k | 0 <= k < |records| :: 0 <= records[k].rank < |merges|
  {
    if merges == [] then []
    else
      var rest := RawRecords(tokens, merges[..|merges| - 1]);
      var r := Resolve(tokens, Last(merges));
      if r == None then rest else rest + [RecordOf(r.value, |merges| - 1)]
  }

  // ---- The resolving loops ----

  method IndexTokens(tokens: seq<Piece>) returns (ix: map<Piece, nat>)
    ensures forall piece :: piece in ix <==> piece in tokens
    ensures forall piece | piece in ix :: IndexOf(tokens, piece) == Some(ix[piece])
  {
    ix := map[];
    for i := 0 to |tokens|
      invariant forall piece :: piece in ix <==> piece in tokens[..i]
      invariant forall piece | piece in ix :: IndexOf(tokens[..i], piece) == Some(ix[piece])
    {
      assert tokens[..i + 1][..i] == tokens[..i];
      if tokens[i] !in ix { ix := ix[tokens[i] := i]; }
    }
    assert tokens[..|tokens|] == tokens;
  }

  method ResolveLine(ghost tokens: seq<Piece>, ix: map<Piece, nat>, line: Piece) returns (r: Option<Resolved>)
    requires forall piece :: piece in ix <==> piece in tokens
    requires forall piece | piece in ix :: IndexOf(tokens, piece) == Some(ix[piece])
    ensures r == Resolve(tokens, line)
  {
    hide IndexOf;
    var at := IndexOf(line, SPACE);
    if at == None { return None; }
    var left, right := line[..at.value], line[at.value + 1..];
    if left !in ix || right !in ix || left + right !in ix { return None; }
    r := Some(Resolved(ix[left], ix[right], ix[left + right]));
  }

  method CollectRecords(tokens: seq<Piece>, merges: seq<Piece>) returns (records: seq<Record>)
    ensures records == RawRecords(tokens, merges)
  {
    hide Resolve, IndexOf;
    var ix := IndexTokens(tokens);
    records := [];
    for i := 0 to |merges|
      invariant records == RawRecords(tokens, merges[..i])
    {
      assert merges[..i + 1][..i] == merges[..i];
      var r := ResolveLine(tokens, ix, merges[i]);
      if r == None { continue; }
      records := records + [RecordOf(r.value, i)];
    }
    assert merges[..|merges|] == merges;
  }

  // ---- std::sort and std::unique ----

  predicate Before(a: Record, b: Record) { a.key < b.key || (a.key == b.key && a.rank < b.rank) }

  function Sort(records: seq<Record>): (out: seq<Record>)
    ensures |out| == |records|
  {
    Sorting.Sort(Before, records)
  }

  // The first record of every run of equal keys.
  function Unique(records: seq<Record>): (out: seq<Record>)
    ensures |out| <= |records| && (records != [] ==> out != [])
    ensures forall k | 0 <= k < |out| :: out[k] in records
    decreases |records|
  {
    if |records| <= 1 then records
    else if records[0].key == records[1].key then Unique([records[0]] + records[2..])
    else [records[0]] + Unique(records[1..])
  }

  // ---- The kept record of a key is the lowest-ranked one ----

  ghost predicate Sorted(records: seq<Record>) {
    forall i, j | 0 <= i < j < |records| :: Before(records[i], records[j])
  }

  ghost predicate RanksAbove(records: seq<Record>, rank: int) {
    forall k | 0 <= k < |records| :: rank < records[k].rank
  }

  ghost predicate RanksAscend(records: seq<Record>) {
    forall i, j | 0 <= i < j < |records| :: records[i].rank < records[j].rank
  }

  lemma {:induction false} InsertSorts(r: Record, sorted: seq<Record>)
    requires Sorted(sorted) && RanksAbove(sorted, r.rank)
    ensures Sorted(Sorting.Insert(Before, r, sorted))
  {
    if sorted == [] {
    } else if Before(r, sorted[0]) {
    } else {
      InsertSorts(r, sorted[1..]);
      Sorting.InsertMembers(Before, r, sorted[1..]);
      var tail := Sorting.Insert(Before, r, sorted[1..]);
      forall k | 0 <= k < |tail|
        ensures Before(sorted[0], tail[k])
      {
        assert tail[k] in multiset(tail);
        assert tail[k] == r || tail[k] in sorted[1..];
      }
    }
  }

  lemma {:induction false} InsertScans(r: Record, sorted: seq<Record>, key: nat)
    requires Sorted(sorted) && RanksAbove(sorted, r.rank)
    ensures Scan(Sorting.Insert(Before, r, sorted), key)
         == if r.key == key then Some(Rule(r.rank, r.merged)) else Scan(sorted, key)
  {
    if sorted != [] && !Before(r, sorted[0]) {
      InsertScans(r, sorted[1..], key);
    }
  }

  lemma {:induction false} SortKeeps(records: seq<Record>)
    requires RanksAscend(records)
    ensures Sorted(Sort(records))
    ensures forall x :: x in Sort(records) <==> x in records
    ensures forall key :: Scan(Sort(records), key) == Scan(records, key)
  {
    Sorting.SortMembers(Before, records);
    if records != [] {
      var rest := records[1..];
      SortKeeps(rest);
      assert RanksAbove(Sort(rest), records[0].rank) by {
        forall k | 0 <= k < |Sort(rest)|
          ensures records[0].rank < Sort(rest)[k].rank
        {
          assert Sort(rest)[k] in rest;
        }
      }
      InsertSorts(records[0], Sort(rest));
      forall key
        ensures Scan(Sort(records), key) == Scan(records, key)
      {
        InsertScans(records[0], Sort(rest), key);
      }
    }
  }

  lemma {:induction false} UniqueScans(records: seq<Record>, key: nat)
    ensures Scan(Unique(records), key) == Scan(records, key)
    decreases |records|
  {
    if |records| > 1 {
      if records[0].key == records[1].key {
        UniqueScans([records[0]] + records[2..], key);
      } else {
        UniqueScans(records[1..], key);
      }
    }
  }

  lemma {:induction false} UniqueSorts(records: seq<Record>)
    requires Sorted(records)
    ensures StrictlySorted(Unique(records))
    ensures records != [] ==> Unique(records)[0] == records[0]
    decreases |records|
  {
    if |records| > 1 {
      if records[0].key == records[1].key {
        UniqueSorts([records[0]] + records[2..]);
      } else {
        UniqueSorts(records[1..]);
      }
    }
  }

  // ---- The raw list in terms of the merge lines ----

  lemma {:induction false} RawAscends(tokens: seq<Piece>, merges: seq<Piece>)
    ensures RanksAscend(RawRecords(tokens, merges))
  {
    if merges != [] { RawAscends(tokens, merges[..|merges| - 1]); }
  }

  lemma {:induction false} ScanAppend(records: seq<Record>, r: Record, key: nat)
    ensures Scan(records + [r], key) ==
      if Scan(records, key) == None && r.key == key then Some(Rule(r.rank, r.merged)) else Scan(records, key)
  {
    if records != [] {
      assert (records + [r])[1..] == records[1..] + [r];
      ScanAppend(records[1..], r, key);
    }
  }

  // Scanning the raw list finds exactly the lowest-index line that resolves to the pair.
  lemma {:induction false} RawScans(tokens: seq<Piece>, merges: seq<Piece>, key: nat)
    ensures Scan(RawRecords(tokens, merges), key) == None <==> forall i: nat :: !ResolvesTo(tokens, merges, i, key)
    ensures var hit := Scan(RawRecords(tokens, merges), key);
      hit.Some? ==>
        && hit.value.rank >= 0 && LowestRule(tokens, merges, hit.value.rank, key)
        && hit.value.merged == Resolve(tokens, merges[hit.value.rank]).value.merged
  {
    hide Resolve;
    if merges != [] {
      var init := merges[..|merges| - 1];
      RawScans(tokens, init, key);
      forall i: nat | i < |init|
        ensures ResolvesTo(tokens, merges, i, key) == ResolvesTo(tokens, init, i, key)
      {
        assert init[i] == merges[i];
      }
      var r := Resolve(tokens, Last(merges));
      if r.Some? {
        ScanAppend(RawRecords(tokens, init), RecordOf(r.value, |merges| - 1), key);
        assert ResolvesTo(tokens, merges, |merges| - 1, key) <==> PairKey(r.value.left, r.value.right) == key;
      } else {
        assert !ResolvesTo(tokens, merges, |merges| - 1, key);
      }
    }
  }
}
