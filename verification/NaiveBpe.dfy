// The rule the tokenizer promises: apply the leftmost pair of lowest rank until
// no adjacent pair has a rule.
module NaiveBpe {
  import opened Prelude

  datatype Rule = Rule(rank: int, merged: int)

  // Rules by packed pair key.
  type Rules = map<nat, Rule>

  // Two 32-bit ids in one 64-bit key; a negative id wraps as the C++ cast does.
  function PairKey(left: int, right: int): nat {
    (left % 0x1_0000_0000) * 0x1_0000_0000 + right % 0x1_0000_0000
  }

  lemma KeyOfPair(a: nat, b: nat, l: nat, r: nat)
    requires a <= INT_MAX && b <= INT_MAX && l <= INT_MAX && r <= INT_MAX && PairKey(a, b) == PairKey(l, r)
    ensures a == l && b == r
  {
  }

  // Keys are ordered as the pairs are: left id first.
  lemma KeysOrdered(a: nat, b: nat, l: nat, r: nat)
    requires a <= INT_MAX && b <= INT_MAX && l <= INT_MAX && r <= INT_MAX
    ensures PairKey(a, b) < PairKey(l, r) <==> a < l || (a == l && b < r)
    ensures PairKey(a, b) < 0x8000_0000_0000_0000
  {
  }

  predicate HasRule(ids: seq<int>, rules: Rules, k: nat) {
    k + 1 < |ids| && PairKey(ids[k], ids[k + 1]) in rules
  }

  function RuleAt(ids: seq<int>, rules: Rules, k: nat): Rule
    requires HasRule(ids, rules, k)
  {
    rules[PairKey(ids[k], ids[k + 1])]
  }

  ghost predicate IsBest(ids: seq<int>, rules: Rules, k: nat) {
    && HasRule(ids, rules, k)
    && forall j: nat | HasRule(ids, rules, j) && j != k ::
         || RuleAt(ids, rules, k).rank < RuleAt(ids, rules, j).rank
         || (RuleAt(ids, rules, k).rank == RuleAt(ids, rules, j).rank && k < j)
  }

  // The leftmost lowest-rank pair at or after position `from`.
  function BestFrom(ids: seq<int>, rules: Rules, from: nat): (best: Option<nat>)
    ensures best == None ==> forall j: nat | from <= j :: !HasRule(ids, rules, j)
    ensures best.Some? ==>
      && from <= best.value
      && HasRule(ids, rules, best.value)
      && forall j: nat | from <= j && HasRule(ids, rules, j) && j != best.value ::
           || RuleAt(ids, rules, best.value).rank < RuleAt(ids, rules, j).rank
           || (RuleAt(ids, rules, best.value).rank == RuleAt(ids, rules, j).rank && best.value < j)
    decreases |ids| - from
  {
    if |ids| <= from then None
    else
      var rest := BestFrom(ids, rules, from + 1);
      if !HasRule(ids, rules, from) then rest
      else if rest.Some? && RuleAt(ids, rules, rest.value).rank < RuleAt(ids, rules, from).rank then rest
      else Some(from)
  }

  function MergeAt(ids: seq<int>, rules: Rules, k: nat): (merged: seq<int>)
    requires HasRule(ids, rules, k)
    ensures |merged| == |ids| - 1
  {
    ids[..k] + [RuleAt(ids, rules, k).merged] + ids[k + 2..]
  }

  function Naive(ids: seq<int>, rules: Rules): (done: seq<int>)
    ensures forall k: nat :: !HasRule(done, rules, k)
    decreases |ids|
  {
    match BestFrom(ids, rules, 0)
    case None => ids
    case Some(k) => Naive(MergeAt(ids, rules, k), rules)
  }

  // One step of the naive loop, at any position known to be the best.
  lemma NaiveStep(ids: seq<int>, rules: Rules, k: nat)
    requires IsBest(ids, rules, k)
    ensures Naive(ids, rules) == Naive(MergeAt(ids, rules, k), rules)
  {
    var best := BestFrom(ids, rules, 0);
    assert best == Some(k);
  }

  lemma NaiveDone(ids: seq<int>, rules: Rules)
    requires forall k: nat :: !HasRule(ids, rules, k)
    ensures Naive(ids, rules) == ids
  {
    assert BestFrom(ids, rules, 0) == None;
  }
}
