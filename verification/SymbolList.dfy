// The doubly linked symbol list and the candidate queue of the fast merge, and
// what relates them to the plain id sequence of NaiveBpe.
module SymbolList {
  import opened NaiveBpe

  // A negative id marks a symbol absorbed by a merge; -1 ends a link chain.
  datatype Symbol = Symbol(id: int, prev: int, next: int)

  // Operand ids are recorded at push time, so that a candidate an earlier merge
  // invalidated is recognised and dropped.
  datatype Candidate = Candidate(rank: int, left: int, right: int, lid: int, rid: int, merged: int)

  // The queue's order: `b` is served after `a`.
  predicate Worse(a: Candidate, b: Candidate) {
    if a.rank != b.rank then a.rank > b.rank else a.left > b.left
  }

  ghost predicate Increasing(live: seq<int>) {
    forall i, j | 0 <= i < j < |live| :: live[i] < live[j]
  }

  ghost predicate NodeOk(syms: seq<Symbol>, live: seq<int>, k: nat)
    requires k < |live|
  {
    && 0 <= live[k] < |syms|
    && syms[live[k]].id >= 0
    && syms[live[k]].prev == (if k == 0 then -1 else live[k - 1])
    && syms[live[k]].next == (if k + 1 < |live| then live[k + 1] else -1)
  }

  // `live` lists, in order, the positions a walk from position 0 visits.
  ghost predicate Linked(syms: seq<Symbol>, live: seq<int>) {
    && |live| > 0 && live[0] == 0
    && Increasing(live)
    && (forall k: nat | k < |live| :: NodeOk(syms, live, k))
    && (forall i | 0 <= i < |syms| && i !in live :: syms[i].id < 0)
  }

  ghost function Ids(syms: seq<Symbol>, live: seq<int>): (ids: seq<int>)
    requires Linked(syms, live)
    ensures |ids| == |live|
  {
    seq(|live|, k requires 0 <= k < |live| => assert NodeOk(syms, live, k); syms[live[k]].id)
  }

  // The candidate the code pushes for the k-th adjacent live pair.
  ghost function PairCandidate(syms: seq<Symbol>, live: seq<int>, rules: Rules, k: nat): Candidate
    requires Linked(syms, live) && HasRule(Ids(syms, live), rules, k)
  {
    var ids := Ids(syms, live);
    var rule := RuleAt(ids, rules, k);
    Candidate(rule.rank, live[k], live[k + 1], ids[k], ids[k + 1], rule.merged)
  }

  ghost predicate Sound(c: Candidate, n: nat, rules: Rules) {
    && 0 <= c.left < n && 0 <= c.right < n
    && c.lid >= 0 && c.rid >= 0
    && PairKey(c.lid, c.rid) in rules
    && rules[PairKey(c.lid, c.rid)] == Rule(c.rank, c.merged)
  }

  // Every adjacent live pair that has a rule is queued with its current ids,
  // those at the positions still to be offered excepted.
  ghost predicate CompleteBut(queue: multiset<Candidate>, syms: seq<Symbol>, live: seq<int>, rules: Rules,
                              open: set<nat>)
    requires Linked(syms, live)
  {
    forall k: nat | HasRule(Ids(syms, live), rules, k) && k !in open :: PairCandidate(syms, live, rules, k) in queue
  }

  ghost predicate QueueOk(queue: multiset<Candidate>, syms: seq<Symbol>, live: seq<int>, rules: Rules, open: set<nat>) {
    && Linked(syms, live)
    && (forall c | c in queue :: Sound(c, |syms|, rules))
    && CompleteBut(queue, syms, live, rules, open)
  }

  predicate Stale(syms: seq<Symbol>, c: Candidate)
    requires 0 <= c.left < |syms| && 0 <= c.right < |syms|
  {
    syms[c.left].id != c.lid || syms[c.left].next != c.right || syms[c.right].id != c.rid
  }

  // The in-place writes of one merge.
  function Absorb(syms: seq<Symbol>, c: Candidate): (merged: seq<Symbol>)
    requires 0 <= c.left < |syms| && 0 <= c.right < |syms| && syms[c.right].next < |syms|
    ensures |merged| == |syms|
  {
    var next := syms[c.right].next;
    var linked := syms[c.left := Symbol(c.merged, syms[c.left].prev, next)];
    var back := if next >= 0 then linked[next := linked[next].(prev := c.left)] else linked;
    back[c.right := back[c.right].(id := -1)]
  }

  // The candidate names the k-th adjacent live pair.
  ghost predicate Adjacent(syms: seq<Symbol>, live: seq<int>, c: Candidate, k: nat) {
    && k + 1 < |live| && live[k] == c.left && live[k + 1] == c.right
    && 0 <= c.left < |syms| && 0 <= c.right < |syms| && syms[c.right].next < |syms|
  }

  // A candidate that is not stale names an adjacent live pair.
  lemma FreshIsAdjacent(syms: seq<Symbol>, live: seq<int>, c: Candidate) returns (k: nat)
    requires Linked(syms, live)
    requires 0 <= c.left < |syms| && 0 <= c.right < |syms| && c.lid >= 0
    requires !Stale(syms, c)
    ensures Adjacent(syms, live, c, k)
  {
    assert c.left in live;
    k :| 0 <= k < |live| && live[k] == c.left;
    assert NodeOk(syms, live, k);
    assert NodeOk(syms, live, k + 1);
    if k + 2 < |live| { assert NodeOk(syms, live, k + 2); }
  }

  // The first fresh candidate served is the pair the naive rule would merge.
  lemma ServedIsBest(queue: multiset<Candidate>, syms: seq<Symbol>, live: seq<int>, rules: Rules,
                     c: Candidate, k: nat)
    requires QueueOk(queue, syms, live, rules, {})
    requires Serves(queue, c)
    requires Adjacent(syms, live, c, k)
    requires !Stale(syms, c)
    ensures IsBest(Ids(syms, live), rules, k)
    ensures RuleAt(Ids(syms, live), rules, k) == Rule(c.rank, c.merged)
  {
    var ids := Ids(syms, live);
    assert Sound(c, |syms|, rules);
    assert ids[k] == c.lid && ids[k + 1] == c.rid;
    forall j: nat | HasRule(ids, rules, j) && j != k
      ensures || RuleAt(ids, rules, k).rank < RuleAt(ids, rules, j).rank
              || (RuleAt(ids, rules, k).rank == RuleAt(ids, rules, j).rank && k < j)
    {
      var d := PairCandidate(syms, live, rules, j);
      assert d in queue;
      assert !Worse(c, d);
    }
  }

  // Dropping a stale candidate loses no adjacent pair.
  lemma DropStale(queue: multiset<Candidate>, syms: seq<Symbol>, live: seq<int>, rules: Rules, c: Candidate)
    requires QueueOk(queue, syms, live, rules, {}) && c in queue
    requires Stale(syms, c)
    ensures QueueOk(queue - multiset{c}, syms, live, rules, {})
  {
    forall k: nat | HasRule(Ids(syms, live), rules, k)
      ensures PairCandidate(syms, live, rules, k) in queue - multiset{c}
    {
      assert NodeOk(syms, live, k) && NodeOk(syms, live, k + 1);
      assert PairCandidate(syms, live, rules, k) != c;
    }
  }

  ghost function Unlink(live: seq<int>, k: nat): seq<int>
    requires k + 1 < |live|
  {
    live[..k + 1] + live[k + 2..]
  }

  lemma UnlinkMembers(live: seq<int>, k: nat)
    requires Increasing(live) && k + 1 < |live|
    ensures Increasing(Unlink(live, k))
    ensures forall i :: i in Unlink(live, k) <==> i in live && i != live[k + 1]
  {
    var rest := Unlink(live, k);
    forall i | i in live && i != live[k + 1]
      ensures i in rest
    {
      var j :| 0 <= j < |live| && live[j] == i;
      assert rest[if j <= k then j else j - 1] == i;
    }
  }

  // Where the merge's writes land.
  lemma AbsorbWrites(syms: seq<Symbol>, c: Candidate)
    requires 0 <= c.left < |syms| && 0 <= c.right < |syms| && syms[c.right].next < |syms|
    requires c.left != c.right && syms[c.right].next != c.left && syms[c.right].next != c.right
    ensures var (after, next) := (Absorb(syms, c), syms[c.right].next);
      && after[c.left] == Symbol(c.merged, syms[c.left].prev, next)
      && after[c.right].id == -1
      && (next >= 0 ==> after[next] == syms[next].(prev := c.left))
      && forall i | 0 <= i < |syms| && i != c.left && i != c.right && i != next :: after[i] == syms[i]
  {
  }

  lemma AbsorbBefore(syms: seq<Symbol>, live: seq<int>, c: Candidate, k: nat, j: nat)
    requires Linked(syms, live) && Adjacent(syms, live, c, k) && j < k
    ensures NodeOk(Absorb(syms, c), Unlink(live, k), j) && Absorb(syms, c)[live[j]].id == syms[live[j]].id
  {
    assert NodeOk(syms, live, k) && NodeOk(syms, live, k + 1) && NodeOk(syms, live, j);
    assert live[j] < live[k] < live[k + 1];
    if k + 2 < |live| { assert live[k + 1] < live[k + 2]; }
    AbsorbWrites(syms, c);
    hide Absorb, Linked;
    var rest := Unlink(live, k);
    assert rest[j] == live[j] && rest[j + 1] == live[j + 1] && (j > 0 ==> rest[j - 1] == live[j - 1]);
    assert Absorb(syms, c)[live[j]] == syms[live[j]];
  }

  lemma AbsorbHere(syms: seq<Symbol>, live: seq<int>, c: Candidate, k: nat)
    requires Linked(syms, live) && Adjacent(syms, live, c, k) && c.merged >= 0
    ensures NodeOk(Absorb(syms, c), Unlink(live, k), k) && Absorb(syms, c)[live[k]].id == c.merged
  {
    assert NodeOk(syms, live, k) && NodeOk(syms, live, k + 1);
    assert live[k] < live[k + 1];
    if k + 2 < |live| { assert live[k + 1] < live[k + 2]; }
    AbsorbWrites(syms, c);
    hide Absorb, Linked;
    var rest := Unlink(live, k);
    assert rest[k] == live[k] && (k > 0 ==> rest[k - 1] == live[k - 1]);
    assert (k + 2 < |live| ==> rest[k + 1] == live[k + 2]);
  }

  lemma AbsorbAfter(syms: seq<Symbol>, live: seq<int>, c: Candidate, k: nat, i: nat)
    requires Linked(syms, live) && Adjacent(syms, live, c, k) && k + 2 <= i < |live|
    ensures NodeOk(Absorb(syms, c), Unlink(live, k), i - 1) && Absorb(syms, c)[live[i]].id == syms[live[i]].id
  {
    assert NodeOk(syms, live, k) && NodeOk(syms, live, k + 1) && NodeOk(syms, live, i);
    assert live[k] < live[k + 1] < live[k + 2] <= live[i];
    assert i > k + 2 ==> live[k + 2] < live[i];
    AbsorbWrites(syms, c);
    hide Absorb, Linked;
    var rest := Unlink(live, k);
    assert rest[i - 1] == live[i] && rest[i - 2] == (if i == k + 2 then live[k] else live[i - 1]);
    assert i + 1 < |live| ==> rest[i] == live[i + 1];
    assert Absorb(syms, c)[live[i]] == if i == k + 2 then syms[live[i]].(prev := c.left) else syms[live[i]];
  }

  lemma AbsorbNode(syms: seq<Symbol>, live: seq<int>, c: Candidate, k: nat, j: nat)
    requires Linked(syms, live) && Adjacent(syms, live, c, k) && c.merged >= 0
    requires j + 1 < |live|
    ensures NodeOk(Absorb(syms, c), Unlink(live, k), j)
    ensures Absorb(syms, c)[Unlink(live, k)[j]].id == if j == k then c.merged else syms[Unlink(live, k)[j]].id
  {
    hide Absorb, NodeOk;
    if j < k { AbsorbBefore(syms, live, c, k, j); }
    else if j == k { AbsorbHere(syms, live, c, k); }
    else { AbsorbAfter(syms, live, c, k, j + 1); }
  }

  // One merge keeps the links consistent ...
  lemma AbsorbKeepsLinks(syms: seq<Symbol>, live: seq<int>, c: Candidate, k: nat)
    requires Linked(syms, live) && Adjacent(syms, live, c, k) && c.merged >= 0
    ensures Linked(Absorb(syms, c), Unlink(live, k))
  {
    var after, rest := Absorb(syms, c), Unlink(live, k);
    UnlinkMembers(live, k);
    forall j: nat | j < |rest|
      ensures NodeOk(after, rest, j)
    {
      AbsorbNode(syms, live, c, k, j);
    }
    forall i | 0 <= i < |after| && i !in rest
      ensures after[i].id < 0
    {
      AbsorbDead(syms, live, c, k, i);
    }
  }

  lemma AbsorbDead(syms: seq<Symbol>, live: seq<int>, c: Candidate, k: nat, i: nat)
    requires Linked(syms, live) && Adjacent(syms, live, c, k)
    requires i < |syms| && i !in Unlink(live, k)
    ensures Absorb(syms, c)[i].id < 0
  {
    UnlinkMembers(live, k);
    assert NodeOk(syms, live, k) && NodeOk(syms, live, k + 1);
    assert live[k] in live && live[k] != live[k + 1];
  }

  // ... and rewrites the id sequence as the naive rule does at position k.
  lemma AbsorbMerges(syms: seq<Symbol>, live: seq<int>, rules: Rules, c: Candidate, k: nat)
    requires Linked(syms, live) && Adjacent(syms, live, c, k) && c.merged >= 0
    requires HasRule(Ids(syms, live), rules, k) && RuleAt(Ids(syms, live), rules, k).merged == c.merged
    requires Linked(Absorb(syms, c), Unlink(live, k))
    ensures Ids(Absorb(syms, c), Unlink(live, k)) == MergeAt(Ids(syms, live), rules, k)
  {
    forall j: nat | j < |Unlink(live, k)|
      ensures Ids(Absorb(syms, c), Unlink(live, k))[j] == MergeAt(Ids(syms, live), rules, k)[j]
    {
      AbsorbNode(syms, live, c, k, j);
    }
  }

  // After a merge at k, only the pairs k-1 and k are new.
  lemma AbsorbKeepsQueue(queue: multiset<Candidate>, syms: seq<Symbol>, live: seq<int>, rules: Rules, c: Candidate,
                         k: nat)
    requires QueueOk(queue, syms, live, rules, {}) && c in queue
    requires Adjacent(syms, live, c, k) && c.merged >= 0
    requires HasRule(Ids(syms, live), rules, k) && RuleAt(Ids(syms, live), rules, k) == Rule(c.rank, c.merged)
    requires Ids(syms, live)[k] == c.lid && Ids(syms, live)[k + 1] == c.rid
    ensures QueueOk(queue - multiset{c}, Absorb(syms, c), Unlink(live, k), rules, if k == 0 then {0} else {k - 1, k})
    ensures Ids(Absorb(syms, c), Unlink(live, k)) == MergeAt(Ids(syms, live), rules, k)
  {
    hide Absorb, Linked, MergeAt;
    AbsorbKeepsLinks(syms, live, c, k);
    AbsorbMerges(syms, live, rules, c, k);
    var after, rest := Absorb(syms, c), Unlink(live, k);
    forall j: nat | HasRule(Ids(after, rest), rules, j) && j != k && j + 1 != k
      ensures PairCandidate(after, rest, rules, j) in queue - multiset{c}
    {
      AbsorbKeepsOther(queue, syms, live, rules, c, k, j);
    }
  }

  lemma AbsorbKeepsOther(queue: multiset<Candidate>, syms: seq<Symbol>, live: seq<int>, rules: Rules,
                         c: Candidate, k: nat, j: nat)
    requires QueueOk(queue, syms, live, rules, {})
    requires Adjacent(syms, live, c, k) && c.merged >= 0
    requires HasRule(Ids(syms, live), rules, k) && RuleAt(Ids(syms, live), rules, k).merged == c.merged
    requires Linked(Absorb(syms, c), Unlink(live, k))
    requires HasRule(Ids(Absorb(syms, c), Unlink(live, k)), rules, j)
    requires j != k && j + 1 != k
    ensures PairCandidate(Absorb(syms, c), Unlink(live, k), rules, j) in queue - multiset{c}
  {
    AbsorbMerges(syms, live, rules, c, k);
    var i := if j < k then j else j + 1;
    assert HasRule(Ids(syms, live), rules, i);
    assert PairCandidate(Absorb(syms, c), Unlink(live, k), rules, j) == PairCandidate(syms, live, rules, i);
  }

  // A freshly built list: position i is the i-th live symbol.
  ghost function Upto(n: nat): (live: seq<int>)
    ensures |live| == n
  {
    seq(n, i => i)
  }

  lemma ChainIsLinked(syms: seq<Symbol>)
    requires syms != [] && forall i | 0 <= i < |syms| ::
      syms[i].id >= 0 && syms[i].prev == i - 1 && syms[i].next == if i + 1 < |syms| then i + 1 else -1
    ensures Linked(syms, Upto(|syms|))
    ensures forall i | 0 <= i < |syms| :: Ids(syms, Upto(|syms|))[i] == syms[i].id
  {
    var live := Upto(|syms|);
    forall k: nat | k < |live| ensures NodeOk(syms, live, k) {}
    forall i | 0 <= i < |syms| ensures i in live { assert live[i] == i; }
  }

  lemma WorseChains(x: Candidate, y: Candidate, d: Candidate)
    requires Worse(y, x) && !Worse(y, d)
    ensures !Worse(x, d)
  {
  }

  // No queued candidate goes before `c`.
  predicate Serves(queue: multiset<Candidate>, c: Candidate) {
    c in queue && forall d | d in queue :: !Worse(c, d)
  }

  // A nonempty queue has a candidate to serve.
  lemma {:induction false} TopExists(queue: multiset<Candidate>)
    requires queue != multiset{}
    ensures exists c :: c in queue && Serves(queue, c)
    decreases |queue|
  {
    hide Worse;
    var x :| x in queue;
    var rest := queue - multiset{x};
    var c := x;
    assert !Worse(x, x) by { NotWorseThanItself(x); }
    if rest != multiset{} {
      TopExists(rest);
      var y :| y in rest && Serves(rest, y);
      if Worse(y, x) {
        forall d | d in rest ensures !Worse(x, d) { WorseChains(x, y, d); }
      } else {
        c := y;
      }
    }
    forall d | d in queue
      ensures !Worse(c, d)
    {
      assert d == x || d in rest;
    }
    assert Serves(queue, c);
  }

  lemma NotWorseThanItself(x: Candidate)
    ensures !Worse(x, x)
  {
  }
}
