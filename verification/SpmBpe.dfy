// The merge loop: linked symbols, a priority queue, stale candidates dropped,
// rules looked up on disk. It must leave what the naive rule leaves.
module SpmBpe {
  import opened Prelude
  import opened NaiveBpe
  import opened SymbolList
  import opened MergeFile
  import opened DiskMergeIndex

  // The rule table an index answers from.
  ghost function RulesOf(records: seq<Record>): Rules {
    map key | key in set r | r in records :: r.key :: Scan(records, key).value
  }

  lemma RulesScan(records: seq<Record>, key: nat)
    ensures key in RulesOf(records) <==> Scan(records, key).Some?
    ensures key in RulesOf(records) ==> RulesOf(records)[key] == Scan(records, key).value
  {
  }

  ghost function IndexRules(index: Index): Rules
    requires index.Valid()
  {
    RulesOf(AllRecords(index.file))
  }

  // Every lookup of a run meets its own disk state; the bytes stay those validated.
  ghost predicate Honest(index: Index, disk: nat -> Disk) {
    forall n: nat :: disk(n).bytes == index.file
  }

  // One rule lookup for the pair at positions l and r, either of which may be off the list.
  method Offer(index: Index, scratch: LookupScratch, ghost rules: Rules, syms: array<Symbol>, l: int, r: int,
               queue: multiset<Candidate>, disk: Disk)
    returns (offered: Result<multiset<Candidate>, Error>, lookups: nat)
    requires index.Valid() && index.SlotsCoherent(scratch) && disk.bytes == index.file && rules == IndexRules(index)
    requires l < syms.Length && r < syms.Length
    modifies scratch, scratch.slots, index`asked
    ensures index.SlotsCoherent(scratch)
    ensures lookups == if l < 0 || r < 0 then 0 else 1
    ensures index.asked == old(index.asked) + lookups && scratch.pageReads <= old(scratch.pageReads) + lookups
    ensures offered.Err? ==> lookups == 1 && !disk.healthy
    ensures offered.Ok? ==> |offered.value| <= |queue| + 1
    ensures offered.Ok? ==> (offered.value == queue +
      if l >= 0 && r >= 0 && PairKey(syms[l].id, syms[r].id) in rules
      then multiset{OfferedCandidate(syms[..], l, r, rules)} else multiset{})
  {
    if l < 0 || r < 0 { return Ok(queue), 0; }
    var key := PairKey(syms[l].id, syms[r].id);
    var hit := index.Find(key, scratch, disk);
    lookups := 1;
    if hit.Err? { return Err(hit.error), 1; }
    RulesScan(AllRecords(index.file), key);
    if hit.value == None { return Ok(queue), 1; }
    var rule := hit.value.value;
    offered := Ok(queue + multiset{Candidate(rule.rank, l, r, syms[l].id, syms[r].id, rule.merged)});
  }

  ghost function OfferedCandidate(syms: seq<Symbol>, l: nat, r: nat, rules: Rules): Candidate
    requires l < |syms| && r < |syms| && PairKey(syms[l].id, syms[r].id) in rules
  {
    var rule := rules[PairKey(syms[l].id, syms[r].id)];
    Candidate(rule.rank, l, r, syms[l].id, syms[r].id, rule.merged)
  }

  // Merged ids are vocabulary entries, so no rule kills a symbol.
  lemma RulesNonNegative(index: Index)
    requires index.Valid()
    ensures forall key | key in IndexRules(index) :: IndexRules(index)[key].merged >= 0
  {
    hide HeaderOk, PayloadOk, PageOk, StrictlySorted;
    var records := AllRecords(index.file);
    forall key | key in IndexRules(index)
      ensures IndexRules(index)[key].merged >= 0
    {
      RulesScan(records, key);
      ScanInVocabulary(records, index.vocabSize, key);
    }
  }

  lemma {:induction false} ScanInVocabulary(records: seq<Record>, vocabSize: int, key: nat)
    requires InVocabulary(records, vocabSize) && Scan(records, key).Some?
    ensures 0 <= Scan(records, key).value.merged < vocabSize
  {
    if records[0].key != key {
      assert InVocabulary(records[1..], vocabSize) by {
        forall i | 0 <= i < |records[1..]| ensures 0 <= records[1..][i].merged < vocabSize {
          assert records[i + 1] == records[1..][i];
        }
      }
      ScanInVocabulary(records[1..], vocabSize, key);
    }
  }

  // Offering the pair at live position k closes that position.
  lemma OfferCloses(queue: multiset<Candidate>, syms: seq<Symbol>, live: seq<int>, rules: Rules, open: set<nat>,
                    k: nat, l: int, r: int, after: multiset<Candidate>)
    requires QueueOk(queue, syms, live, rules, open)
    requires k < |live| && l == live[k] && r == (if k + 1 < |live| then live[k + 1] else -1)
    requires l < |syms| && r < |syms|
    requires after == queue +
      if l >= 0 && r >= 0 && PairKey(syms[l].id, syms[r].id) in rules
      then multiset{OfferedCandidate(syms, l, r, rules)} else multiset{}
    ensures QueueOk(after, syms, live, rules, open - {k})
  {
    assert NodeOk(syms, live, k);
    if k + 1 < |live| { assert NodeOk(syms, live, k + 1); }
    var ids := Ids(syms, live);
    if HasRule(ids, rules, k) {
      assert PairCandidate(syms, live, rules, k) == OfferedCandidate(syms, l, r, rules);
    }
  }

  ghost function From(i: nat, n: nat): (s: set<nat>)
    ensures forall k: nat :: k in s <==> i <= k < n
    decreases n - i
  {
    if n <= i then {} else {i} + From(i + 1, n)
  }

  ghost predicate SomeReadFailed(disk: nat -> Disk, lookups: int) {
    exists n: nat | n < lookups :: !disk(n).healthy
  }

  // Offer every adjacent pair, left to right.
  method OfferAll(index: Index, scratch: LookupScratch, ghost rules: Rules, syms: array<Symbol>, disk: nat -> Disk)
    returns (r: Result<multiset<Candidate>, Error>, lookups: nat)
    requires index.Valid() && index.SlotsCoherent(scratch) && Honest(index, disk) && rules == IndexRules(index)
    requires syms.Length > 0 && Linked(syms[..], Upto(syms.Length))
    modifies scratch, scratch.slots, index`asked
    ensures index.SlotsCoherent(scratch) && syms[..] == old(syms[..])
    ensures r.Err? ==> SomeReadFailed(disk, lookups)
    ensures r.Ok? ==> QueueOk(r.value, syms[..], Upto(syms.Length), rules, {}) && |r.value| <= syms.Length - 1
    ensures lookups <= syms.Length - 1
    ensures index.asked == old(index.asked) + lookups && scratch.pageReads <= old(scratch.pageReads) + lookups
  {
    hide IndexRules, Linked, Index.Valid, Index.SlotsCoherent, NodeOk, Sound;
    ghost var n, live := syms.Length, Upto(syms.Length);
    var queue: multiset<Candidate> := multiset{};
    lookups := 0;
    var i := 0;
    while i + 1 < syms.Length
      invariant 0 <= i <= n - 1 && lookups == i && |queue| <= i
      invariant index.asked == old(index.asked) + lookups && scratch.pageReads <= old(scratch.pageReads) + lookups
      invariant index.SlotsCoherent(scratch)
      invariant syms[..] == old(syms[..])
      invariant QueueOk(queue, syms[..], live, rules, From(i, n))
    {
      ghost var before := queue;
      var offered, count := Offer(index, scratch, rules, syms, i, i + 1, queue, disk(i));
      lookups := lookups + count;
      if offered.Err? { return Err(offered.error), lookups; }
      queue := offered.value;
      OfferCloses(before, syms[..], live, rules, From(i, n), i, i, i + 1, queue);
      assert From(i, n) - {i} == From(i + 1, n);
      i := i + 1;
    }
    r := Ok(queue);
  }

  // The in-place writes of one merge.
  method AbsorbInPlace(syms: array<Symbol>, c: Candidate)
    requires 0 <= c.left < syms.Length && 0 <= c.right < syms.Length && syms[c.right].next < syms.Length
    requires c.left != c.right && syms[c.right].next != c.left && syms[c.right].next != c.right
    modifies syms
    ensures syms[..] == Absorb(old(syms[..]), c)
  {
    var next := syms[c.right].next;
    syms[c.left] := syms[c.left].(id := c.merged, next := next);
    if next >= 0 { syms[next] := syms[next].(prev := c.left); }
    syms[c.right] := syms[c.right].(id := -1);
  }

  // `l` and `r` are the k-th live position and its successor; -1 stands for either end.
  ghost predicate Neighbours(syms: seq<Symbol>, live: seq<int>, k: int, l: int, r: int) {
    && -1 <= k < |live|
    && l == (if k < 0 then -1 else live[k]) && l < |syms|
    && r == (if k + 1 < |live| then live[k + 1] else -1) && r < |syms|
  }

  ghost function Close(open: set<nat>, k: int): set<nat> { if k < 0 then open else open - {k} }

  method OfferPosition(index: Index, scratch: LookupScratch, ghost rules: Rules, syms: array<Symbol>,
                       ghost live: seq<int>, ghost open: set<nat>, ghost k: int, l: int, r: int,
                       queue: multiset<Candidate>, disk: Disk)
    returns (offered: Result<multiset<Candidate>, Error>, lookups: nat)
    requires index.Valid() && index.SlotsCoherent(scratch) && disk.bytes == index.file && rules == IndexRules(index)
    requires QueueOk(queue, syms[..], live, rules, open) && Neighbours(syms[..], live, k, l, r)
    modifies scratch, scratch.slots, index`asked
    ensures index.SlotsCoherent(scratch) && syms[..] == old(syms[..])
    ensures lookups <= 1 && (offered.Err? ==> lookups == 1 && !disk.healthy)
    ensures index.asked == old(index.asked) + lookups && scratch.pageReads <= old(scratch.pageReads) + lookups
    ensures offered.Ok? ==>
      QueueOk(offered.value, syms[..], live, rules, Close(open, k)) && |offered.value| <= |queue| + 1
  {
    hide IndexRules, Linked, Index.Valid, Index.SlotsCoherent, Sound, QueueOk;
    offered, lookups := Offer(index, scratch, rules, syms, l, r, queue, disk);
    assert syms[..] == old(syms[..]);
    if offered.Ok? {
      if k >= 0 {
        OfferCloses(queue, syms[..], live, rules, open, k, l, r, offered.value);
      } else {
        assert offered.value == queue;
      }
    }
  }

  // The new pairs on both sides of a merge at live position k.
  method OfferNeighbours(index: Index, scratch: LookupScratch, ghost rules: Rules, syms: array<Symbol>,
                         ghost live: seq<int>, ghost k: nat, left: nat, queue: multiset<Candidate>,
                         disk: nat -> Disk, done: nat)
    returns (r: Result<multiset<Candidate>, Error>, lookups: nat)
    requires index.Valid() && index.SlotsCoherent(scratch) && Honest(index, disk) && rules == IndexRules(index)
    requires k < |live| && left == live[k] && left < syms.Length
    requires QueueOk(queue, syms[..], live, rules, if k == 0 then {0} else {k - 1, k})
    modifies scratch, scratch.slots, index`asked
    ensures index.SlotsCoherent(scratch) && syms[..] == old(syms[..])
    ensures lookups <= 2
    ensures index.asked == old(index.asked) + lookups && scratch.pageReads <= old(scratch.pageReads) + lookups
    ensures r.Err? ==> SomeReadFailed(disk, done + lookups)
    ensures r.Ok? ==> QueueOk(r.value, syms[..], live, rules, {}) && |r.value| <= |queue| + 2
  {
    hide IndexRules, Index.Valid, Index.SlotsCoherent, QueueOk, Linked, Neighbours;
    ghost var open: set<nat> := if k == 0 then {0} else {k - 1, k};
    QueueFacts(queue, syms[..], live, rules, open);
    LinksAt(syms[..], live, k);
    var first, count := OfferPosition(index, scratch, rules, syms, live, open, k - 1, syms[left].prev, left, queue,
                                      disk(done));
    lookups := count;
    if first.Err? { return Err(first.error), lookups; }
    assert Close(open, k - 1) == {k};
    assert syms[left] == syms[..][left];
    var second, count' := OfferPosition(index, scratch, rules, syms, live, {k}, k, left, syms[left].next, first.value,
                                        disk(done + lookups));
    lookups := lookups + count';
    if second.Err? { return Err(second.error), lookups; }
    assert Close({k}, k) == {};
    r := Ok(second.value);
  }

  lemma LinksAt(syms: seq<Symbol>, live: seq<int>, k: nat)
    requires Linked(syms, live) && k < |live|
    ensures 0 <= live[k] < |syms|
    ensures Neighbours(syms, live, k - 1, syms[live[k]].prev, live[k])
    ensures Neighbours(syms, live, k, live[k], syms[live[k]].next)
  {
    assert NodeOk(syms, live, k);
    if k > 0 { assert NodeOk(syms, live, k - 1); }
    if k + 1 < |live| { assert NodeOk(syms, live, k + 1); }
  }

  // Everything one served, fresh candidate establishes.
  lemma MergeStep(queue: multiset<Candidate>, syms: seq<Symbol>, live: seq<int>, rules: Rules, c: Candidate)
    returns (k: nat)
    requires QueueOk(queue, syms, live, rules, {}) && Serves(queue, c)
    requires forall key | key in rules :: rules[key].merged >= 0
    requires 0 <= c.left < |syms| && 0 <= c.right < |syms| && !Stale(syms, c)
    ensures Adjacent(syms, live, c, k)
    ensures c.left != c.right && syms[c.right].next != c.left && syms[c.right].next != c.right
    ensures QueueOk(queue - multiset{c}, Absorb(syms, c), Unlink(live, k), rules, if k == 0 then {0} else {k - 1, k})
    ensures Naive(Ids(syms, live), rules) == Naive(Ids(Absorb(syms, c), Unlink(live, k)), rules)
    ensures 0 < |Unlink(live, k)| == |live| - 1 && Unlink(live, k)[k] == c.left
  {
    hide Naive, CompleteBut, Absorb;
    assert Sound(c, |syms|, rules);
    k := FreshIsAdjacent(syms, live, c);
    ServedIsBest(queue, syms, live, rules, c, k);
    NaiveStep(Ids(syms, live), rules, k);
    assert NodeOk(syms, live, k) && NodeOk(syms, live, k + 1);
    assert live[k] < live[k + 1];
    if k + 2 < |live| { assert live[k + 1] < live[k + 2]; }
    assert Ids(syms, live)[k] == c.lid && Ids(syms, live)[k + 1] == c.rid;
    AbsorbKeepsQueue(queue, syms, live, rules, c, k);
  }

  // Nothing left to serve: nothing left to merge.
  lemma QueueDrained(syms: seq<Symbol>, live: seq<int>, rules: Rules)
    requires QueueOk(multiset{}, syms, live, rules, {})
    ensures Naive(Ids(syms, live), rules) == Ids(syms, live)
  {
    var ids := Ids(syms, live);
    NaiveDone(ids, rules);
  }

  // Apply one fresh candidate and offer the pairs it creates.
  method MergeOne(index: Index, scratch: LookupScratch, ghost rules: Rules, syms: array<Symbol>, ghost live: seq<int>,
                  queue: multiset<Candidate>, c: Candidate, disk: nat -> Disk, done: nat)
    returns (r: Result<multiset<Candidate>, Error>, ghost rest: seq<int>, lookups: nat)
    requires index.Valid() && index.SlotsCoherent(scratch) && Honest(index, disk) && rules == IndexRules(index)
    requires QueueOk(queue, syms[..], live, rules, {}) && Serves(queue, c)
    requires forall key | key in rules :: rules[key].merged >= 0
    requires 0 <= c.left < syms.Length && 0 <= c.right < syms.Length && !Stale(syms[..], c)
    modifies scratch, scratch.slots, index`asked, syms
    ensures index.SlotsCoherent(scratch)
    ensures lookups <= 2 && 0 < |rest| == |live| - 1
    ensures index.asked == old(index.asked) + lookups && scratch.pageReads <= old(scratch.pageReads) + lookups
    ensures r.Err? ==> SomeReadFailed(disk, done + lookups)
    ensures r.Ok? ==>
      && QueueOk(r.value, syms[..], rest, rules, {})
      && Naive(Ids(syms[..], rest), rules) == old(Naive(Ids(syms[..], live), rules))
      && |r.value| <= |queue| + 1
  {
    hide IndexRules, Linked, Index.Valid, Index.SlotsCoherent, Naive, CompleteBut, Absorb, Unlink, Sound;
    ghost var k := MergeStep(queue, syms[..], live, rules, c);
    ghost var merged := Absorb(syms[..], c);
    AbsorbInPlace(syms, c);
    assert syms[..] == merged;
    rest := Unlink(live, k);
    r, lookups := OfferNeighbours(index, scratch, rules, syms, rest, k, c.left, queue - multiset{c}, disk, done);
  }

  // Serve candidates until none is left. Each turn takes one candidate off; a merge
  // takes one symbol off the list and puts at most two candidates on.
  method MergeAll(index: Index, scratch: LookupScratch, syms: array<Symbol>, disk: nat -> Disk)
    returns (failure: Option<Error>, ghost live: seq<int>, lookups: nat, merges: nat)
    requires index.Valid() && index.SlotsCoherent(scratch) && Honest(index, disk)
    requires syms.Length > 0 && Linked(syms[..], Upto(syms.Length))
    modifies scratch, scratch.slots, index`asked, syms
    ensures failure.Some? ==> SomeReadFailed(disk, lookups)
    ensures failure == None ==>
      && Linked(syms[..], live)
      && Ids(syms[..], live) == Naive(old(Ids(syms[..], Upto(syms.Length))), IndexRules(index))
    ensures |live| == syms.Length - merges
    ensures merges <= syms.Length - 1 && lookups <= 3 * (syms.Length - 1)
    ensures index.asked == old(index.asked) + lookups && scratch.pageReads <= old(scratch.pageReads) + lookups
  {
    ghost var rules, n := IndexRules(index), syms.Length;
    RulesNonNegative(index);
    hide IndexRules, Linked, Index.Valid, Index.SlotsCoherent, Naive, QueueOk;
    live, merges := Upto(n), 0;
    var offered, count := OfferAll(index, scratch, rules, syms, disk);
    lookups := count;
    if offered.Err? { return Some(offered.error), live, lookups, merges; }
    QueueFacts(offered.value, syms[..], live, rules, {});
    failure, live, count, merges := MergeLoop(index, scratch, rules, syms, offered.value, disk, lookups);
    lookups := lookups + count;
  }

  lemma QueueFacts(queue: multiset<Candidate>, syms: seq<Symbol>, live: seq<int>, rules: Rules, open: set<nat>)
    requires QueueOk(queue, syms, live, rules, open)
    ensures Linked(syms, live) && live != []
    ensures forall c | c in queue :: Sound(c, |syms|, rules)
  {
  }

  method MergeLoop(index: Index, scratch: LookupScratch, ghost rules: Rules, syms: array<Symbol>,
                   start: multiset<Candidate>, disk: nat -> Disk, done: nat)
    returns (failure: Option<Error>, ghost live: seq<int>, lookups: nat, merges: nat)
    requires index.Valid() && index.SlotsCoherent(scratch) && Honest(index, disk) && rules == IndexRules(index)
    requires forall key | key in rules :: rules[key].merged >= 0
    requires QueueOk(start, syms[..], Upto(syms.Length), rules, {})
    modifies scratch, scratch.slots, index`asked, syms
    ensures failure.Some? ==> SomeReadFailed(disk, done + lookups)
    ensures failure == None ==>
      && Linked(syms[..], live)
      && Ids(syms[..], live) == Naive(old(Ids(syms[..], Upto(syms.Length))), rules)
    ensures |live| == syms.Length - merges
    ensures merges <= syms.Length - 1 && lookups <= 2 * merges
    ensures index.asked == old(index.asked) + lookups && scratch.pageReads <= old(scratch.pageReads) + lookups
  {
    hide IndexRules, Linked, Index.Valid, Index.SlotsCoherent, Naive, QueueOk, Serves, Worse;
    var queue := start;
    live, lookups, merges := Upto(syms.Length), 0, 0;
    QueueFacts(queue, syms[..], live, rules, {});
    ghost var n, goal := syms.Length, Naive(Ids(syms[..], live), rules);
    while queue != multiset{}
      invariant index.SlotsCoherent(scratch)
      invariant QueueOk(queue, syms[..], live, rules, {}) && Linked(syms[..], live)
      invariant Naive(Ids(syms[..], live), rules) == goal
      invariant |live| == n - merges && 0 < |live| && lookups <= 2 * merges
      invariant index.asked == old(index.asked) + lookups && scratch.pageReads <= old(scratch.pageReads) + lookups
      decreases |queue| + 2 * |live|
    {
      TopExists(queue);
      QueueFacts(queue, syms[..], live, rules, {});
      var c :| c in queue && Serves(queue, c);
      assert Sound(c, n, rules);
      if syms[c.left].id != c.lid || syms[c.left].next != c.right || syms[c.right].id != c.rid {
        DropStale(queue, syms[..], live, rules, c);
        queue := queue - multiset{c};
        continue;
      }
      var offered, count;
      offered, live, count := MergeOne(index, scratch, rules, syms, live, queue, c, disk, done + lookups);
      merges := merges + 1;
      lookups := lookups + count;
      if offered.Err? { return Some(offered.error), live, lookups, merges; }
      queue := offered.value;
      QueueFacts(queue, syms[..], live, rules, {});
    }
    QueueDrained(syms[..], live, rules);
    failure := None;
  }
}
