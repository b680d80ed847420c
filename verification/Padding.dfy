// Sorting by length wastes the least: when the texts fill their sub-batches, no
// other way of grouping them pads less.
module Padding {
  import opened Prelude
  import opened Batch

  function Longest(group: seq<Item>): (n: nat)
    ensures forall item | item in group :: |item.ids| <= n
  {
    if group == [] then 0 else Max(Longest(group[..|group| - 1]), |Last(group).ids|)
  }

  // The padded cells of one sub-batch.
  function Waste(group: seq<Item>): int { |group| * Longest(group) - Tokens(group) }

  function TotalWaste(groups: seq<seq<Item>>): int {
    if groups == [] then 0 else Waste(groups[0]) + TotalWaste(groups[1..])
  }

  function Flatten(groups: seq<seq<Item>>): seq<Item> {
    if groups == [] then [] else groups[0] + Flatten(groups[1..])
  }

  // The sub-batches of a plan, from the n-th on.
  function Subbatches(plan: Plan, n: nat): (groups: seq<seq<Item>>)
    requires plan.maxBatch > 0 && n <= SubbatchCount(plan)
    ensures |groups| == SubbatchCount(plan) - n
    decreases SubbatchCount(plan) - n
  {
    if n == SubbatchCount(plan) then [] else [Slice(plan, n)] + Subbatches(plan, n + 1)
  }

  ghost predicate Grouping(groups: seq<seq<Item>>, items: seq<Item>, m: nat) {
    && (forall i | 0 <= i < |groups| :: |groups[i]| == m)
    && multiset(Flatten(groups)) == multiset(items)
  }

  // ---- How many are at least t long ----

  function AtLeast(items: seq<Item>, t: nat): nat {
    if items == [] then 0 else AtLeast(items[1..], t) + if |items[0].ids| >= t then 1 else 0
  }

  function GroupsAtLeast(groups: seq<seq<Item>>, t: nat): nat {
    if groups == [] then 0 else GroupsAtLeast(groups[1..], t) + if Longest(groups[0]) >= t then 1 else 0
  }

  function Heights(groups: seq<seq<Item>>, cap: nat): nat {
    if groups == [] then 0 else Heights(groups[1..], cap) + Min(Longest(groups[0]), cap)
  }

  lemma {:induction false} AtLeastAppend(a: seq<Item>, b: seq<Item>, t: nat)
    ensures AtLeast(a + b, t) == AtLeast(a, t) + AtLeast(b, t)
  {
    if a == [] {
      assert a + b == b;
    } else {
      AtLeastAppend(a[1..], b, t);
      assert (a + b)[1..] == a[1..] + b;
    }
  }

  lemma {:induction false} AtLeastAll(items: seq<Item>, t: nat)
    ensures AtLeast(items, t) <= |items|
    ensures (forall item | item in items :: |item.ids| >= t) ==> AtLeast(items, t) == |items|
    ensures (forall item | item in items :: |item.ids| < t) ==> AtLeast(items, t) == 0
  {
    if items != [] {
      AtLeastAll(items[1..], t);
      assert forall item | item in items[1..] :: item in items;
    }
  }

  // Only the collection counts, not the order.
  lemma {:induction false} AtLeastPermuted(a: seq<Item>, b: seq<Item>, t: nat)
    requires multiset(a) == multiset(b)
    ensures AtLeast(a, t) == AtLeast(b, t) && Tokens(a) == Tokens(b) && |a| == |b|
  {
    if a == [] {
      assert b == [] by { assert |multiset(b)| == |b|; }
    } else {
      hide AtLeast, Tokens;
      var k := Match(a, b);
      AtLeastPermuted(a[..0] + a[1..], b[..k] + b[k + 1..], t);
      CountOne(a, 0, t);
      CountOne(b, k, t);
    }
  }

  // The first element of one sequence, found in a permutation of it, and both without it.
  lemma Match<T>(a: seq<T>, b: seq<T>) returns (k: nat)
    requires multiset(a) == multiset(b) && a != []
    ensures |a| == |b| && k < |b| && b[k] == a[0]
    ensures multiset(a[..0] + a[1..]) == multiset(b[..k] + b[k + 1..])
  {
    assert |multiset(a)| == |a| && |multiset(b)| == |b|;
    assert a[0] in multiset(a) && a[0] in multiset(b);
    k :| 0 <= k < |b| && b[k] == a[0];
    Without(a, 0);
    Without(b, k);
  }

  lemma Without<T>(a: seq<T>, k: nat)
    requires k < |a|
    ensures multiset(a[..k] + a[k + 1..]) == multiset(a) - multiset{a[k]}
  {
    assert a == a[..k] + ([a[k]] + a[k + 1..]);
    assert multiset(a) == multiset(a[..k]) + (multiset{a[k]} + multiset(a[k + 1..]));
  }

  lemma CountOne(a: seq<Item>, k: nat, t: nat)
    requires k < |a|
    ensures AtLeast(a, t) == AtLeast(a[..k] + a[k + 1..], t) + if |a[k].ids| >= t then 1 else 0
    ensures Tokens(a) == Tokens(a[..k] + a[k + 1..]) + |a[k].ids|
  {
    var front, one, back := a[..k], [a[k]], a[k + 1..];
    assert a == front + (one + back);
    AtLeastAppend(front, back, t);
    AtLeastAppend(front, one + back, t);
    assert (one + back)[1..] == back;
    TokensAppend(front, back);
    TokensAppend(one, back);
    TokensAppend(front, one + back);
    assert one[..0] == [];
  }

  lemma {:induction false} TokensAppend(a: seq<Item>, b: seq<Item>)
    ensures Tokens(a + b) == Tokens(a) + Tokens(b)
  {
    if b == [] {
      assert a + b == a;
    } else {
      var front := b[..|b| - 1];
      TokensAppend(a, front);
      assert (a + b)[..|a + b| - 1] == a + front;
    }
  }

  // ---- Sums of maxima, counted level by level ----

  lemma {:induction false} Level(groups: seq<seq<Item>>, cap: nat)
    ensures Heights(groups, cap + 1) == Heights(groups, cap) + GroupsAtLeast(groups, cap + 1)
  {
    if groups != [] { Level(groups[1..], cap); }
  }

  lemma {:induction false} Lower(a: seq<seq<Item>>, b: seq<seq<Item>>, cap: nat)
    requires forall t | 1 <= t <= cap :: GroupsAtLeast(a, t) <= GroupsAtLeast(b, t)
    ensures Heights(a, cap) <= Heights(b, cap)
  {
    if cap == 0 {
      Flat(a);
      Flat(b);
    } else {
      Lower(a, b, cap - 1);
      Level(a, cap - 1);
      Level(b, cap - 1);
    }
  }

  lemma {:induction false} Flat(groups: seq<seq<Item>>)
    ensures Heights(groups, 0) == 0
  {
    if groups != [] { Flat(groups[1..]); }
  }

  // A group with a member of t has height t; so k groups of m hold at most m * k such members.
  lemma {:induction false} GroupsHold(groups: seq<seq<Item>>, m: nat, t: nat)
    requires forall i | 0 <= i < |groups| :: |groups[i]| == m
    ensures AtLeast(Flatten(groups), t) <= m * GroupsAtLeast(groups, t)
  {
    if groups != [] {
      var rest := groups[1..];
      GroupsHold(rest, m, t);
      AtLeastAppend(groups[0], Flatten(rest), t);
      hide AtLeast;
      AtLeastAll(groups[0], t);
      Distribute(m, GroupsAtLeast(rest, t));
    }
  }

  lemma Distribute(m: nat, n: nat)
    ensures m * (n + 1) == m * n + m
  {
  }

  // In sorted order no height is spread over more groups than its members need.
  lemma {:induction false} SortedGroupsFew(groups: seq<seq<Item>>, m: nat, t: nat, k: nat)
    requires m > 0 && forall i | 0 <= i < |groups| :: |groups[i]| == m
    requires ByLength(Flatten(groups)) && AtLeast(Flatten(groups), t) <= m * k
    ensures GroupsAtLeast(groups, t) <= k
  {
    if groups != [] {
      var first, rest := groups[0], Flatten(groups[1..]);
      AtLeastAppend(first, rest, t);
      TailByLength(first, rest);
      GroupsCount(groups, t);
      hide AtLeast, ByLength, Longest;
      if Longest(first) >= t { FirstTall(groups, m, t, k); } else { SortedGroupsFew(groups[1..], m, t, k); }
    }
  }

  // A tall first group makes every later member tall.
  lemma FirstTall(groups: seq<seq<Item>>, m: nat, t: nat, k: nat)
    requires m > 0 && groups != [] && forall i | 0 <= i < |groups| :: |groups[i]| == m
    requires ByLength(Flatten(groups)) && Longest(groups[0]) >= t
    requires AtLeast(groups[0], t) + AtLeast(Flatten(groups[1..]), t) <= m * k
    ensures |groups| <= k
  {
    var first, rest := groups[0], Flatten(groups[1..]);
    FlattenSize(groups[1..], m);
    TallFirst(first, rest, t);
    hide AtLeast, Longest, ByLength, Flatten;
    TooMany(m, |groups|, k, AtLeast(first, t));
  }

  lemma TooMany(m: nat, n: nat, k: nat, x: nat)
    requires n > 0 && x > 0 && x + m * (n - 1) <= m * k
    ensures n <= k
  {
    if k < n { MulLe(k, n - 1, m); }
  }

  lemma TallFirst(first: seq<Item>, rest: seq<Item>, t: nat)
    requires ByLength(first + rest) && first != [] && Longest(first) >= t
    ensures AtLeast(first, t) > 0 && AtLeast(rest, t) == |rest|
  {
    TailByLength(first, rest);
    LongestLast(first);
    LaterLonger(first, rest);
    AtLeastAll(rest, t);
    SomeAtLeast(first, t);
  }

  lemma TailByLength(a: seq<Item>, b: seq<Item>)
    requires ByLength(a + b)
    ensures ByLength(a) && ByLength(b)
  {
    assert forall i | 0 <= i < |a| :: (a + b)[i] == a[i];
    assert forall i | 0 <= i < |b| :: (a + b)[|a| + i] == b[i];
  }

  lemma LaterLonger(a: seq<Item>, b: seq<Item>)
    requires ByLength(a + b) && a != []
    ensures forall item | item in b :: |Last(a).ids| <= |item.ids|
  {
    forall item | item in b ensures |Last(a).ids| <= |item.ids| {
      var i :| 0 <= i < |b| && b[i] == item;
      assert (a + b)[|a| - 1] == Last(a) && (a + b)[|a| + i] == item;
    }
  }

  lemma {:induction false} LongestLast(group: seq<Item>)
    requires group != [] && ByLength(group)
    ensures Longest(group) == |Last(group).ids|
  {
    var front := group[..|group| - 1];
    if front != [] {
      LongestLast(front);
      assert group[|group| - 2] == Last(front);
    }
  }

  lemma SomeAtLeast(group: seq<Item>, t: nat)
    requires group != [] && |Last(group).ids| >= t
    ensures AtLeast(group, t) > 0
  {
    var front := group[..|group| - 1];
    assert group == front + [Last(group)];
    AtLeastAppend(front, [Last(group)], t);
  }

  lemma {:induction false} GroupsCount(groups: seq<seq<Item>>, t: nat)
    ensures GroupsAtLeast(groups, t) <= |groups|
  {
    if groups != [] { GroupsCount(groups[1..], t); }
  }

  lemma {:induction false} FlattenSize(groups: seq<seq<Item>>, m: nat)
    requires forall i | 0 <= i < |groups| :: |groups[i]| == m
    ensures |Flatten(groups)| == m * |groups|
  {
    if groups != [] { FlattenSize(groups[1..], m); }
  }

  // ---- The theorem ----

  lemma {:induction false} WasteSum(groups: seq<seq<Item>>, m: nat, cap: nat)
    requires forall i | 0 <= i < |groups| :: |groups[i]| == m
    requires forall item | item in Flatten(groups) :: |item.ids| <= cap
    ensures TotalWaste(groups) == m * Heights(groups, cap) - Tokens(Flatten(groups))
  {
    if groups != [] {
      var first, rest := groups[0], Flatten(groups[1..]);
      TokensAppend(first, rest);
      WasteSum(groups[1..], m, cap);
      LongestCapped(first, cap);
      hide Tokens, Longest;
      Distributed(m, Heights(groups[1..], cap), Longest(first));
    }
  }

  lemma Distributed(m: nat, a: nat, b: nat)
    ensures m * (a + b) == m * a + m * b
  {
  }

  lemma {:induction false} LongestCapped(group: seq<Item>, cap: nat)
    requires forall item | item in group :: |item.ids| <= cap
    ensures Longest(group) <= cap
  {
    if group != [] {
      assert Last(group) in group;
      LongestCapped(group[..|group| - 1], cap);
    }
  }

  lemma {:induction false} SubbatchesTile(plan: Plan, n: nat)
    requires plan.maxBatch > 0 && n <= SubbatchCount(plan)
    requires Begin(plan, n) <= |plan.items| && (n == SubbatchCount(plan) ==> Begin(plan, n) == |plan.items|)
    requires |plan.items| % plan.maxBatch == 0
    ensures Flatten(Subbatches(plan, n)) == plan.items[Begin(plan, n)..]
    ensures forall i | 0 <= i < |Subbatches(plan, n)| :: |Subbatches(plan, n)[i]| == plan.maxBatch
    decreases SubbatchCount(plan) - n
  {
    if n < SubbatchCount(plan) {
      SubbatchBounds(plan, n);
      FullSubbatch(plan, n);
      SubbatchesTile(plan, n + 1);
      assert plan.items[Begin(plan, n)..] == Slice(plan, n) + plan.items[Begin(plan, n + 1)..];
    }
  }

  lemma FullSubbatch(plan: Plan, n: nat)
    requires plan.maxBatch > 0 && n < SubbatchCount(plan) && |plan.items| % plan.maxBatch == 0
    ensures Begin(plan, n + 1) <= |plan.items| && |Slice(plan, n)| == plan.maxBatch
    ensures n + 1 == SubbatchCount(plan) ==> Begin(plan, n + 1) == |plan.items|
  {
    var size, m := |plan.items|, plan.maxBatch;
    SubbatchBounds(plan, n);
    var q := size / m;
    assert size == q * m;
    if q < n + 1 { MulLe(q, n, m); }
    MulLe(n + 1, q, m);
    if n + 1 == SubbatchCount(plan) && n + 1 < q { MulLe(n + 2, q, m); SubbatchBounds(plan, n + 1); }
  }

  lemma OwnGroups(plan: Plan)
    requires plan.maxBatch > 0 && |plan.items| % plan.maxBatch == 0
    ensures Flatten(Subbatches(plan, 0)) == plan.items
    ensures forall i | 0 <= i < |Subbatches(plan, 0)| :: |Subbatches(plan, 0)[i]| == plan.maxBatch
  {
    SubbatchesTile(plan, 0);
    assert plan.items[0..] == plan.items;
  }

  // With full sub-batches, the plan's padding is the least any grouping has.
  lemma SortedIsBest(plan: Plan, groups: seq<seq<Item>>)
    requires plan.maxBatch > 0 && PlanOk(plan) && |plan.items| % plan.maxBatch == 0
    requires Grouping(groups, plan.items, plan.maxBatch)
    ensures TotalWaste(Subbatches(plan, 0)) <= TotalWaste(groups)
  {
    var own, m, cap := Subbatches(plan, 0), plan.maxBatch, Longest(plan.items);
    OwnGroups(plan);
    hide Longest, TotalWaste, Heights, GroupsAtLeast, AtLeast, Tokens, Flatten, Subbatches, ByLength, SubbatchCount;
    forall t: nat ensures GroupsAtLeast(own, t) <= GroupsAtLeast(groups, t) {
      AtLeastPermuted(Flatten(groups), plan.items, t);
      GroupsHold(groups, m, t);
      SortedGroupsFew(own, m, t, GroupsAtLeast(groups, t));
    }
    Lower(own, groups, cap);
    AtLeastPermuted(Flatten(groups), plan.items, 0);
    forall item | item in Flatten(groups) ensures |item.ids| <= cap {
      assert item in multiset(Flatten(groups));
    }
    WasteSum(own, m, cap);
    WasteSum(groups, m, cap);
    MulLe(Heights(own, cap), Heights(groups, cap), m);
  }

  // A sub-batch's padded cells are the ones counted when it is laid out.
  lemma WasteIsPadding(out: MaterializedBatch, items: seq<Item>, pad: int)
    requires Laid(out, items, pad) && ByLength(items)
    ensures Waste(items) == out.padding
  {
    LongestLast(items);
  }

  // A short last sub-batch breaks it: lengths 1, 5, 5 in twos.
  function Uneven(): Plan { Plan([Item([7], 0), Item([7, 7, 7, 7, 7], 1), Item([7, 7, 7, 7, 7], 2)], 2) }

  function Better(): seq<seq<Item>> { [[Uneven().items[0]], [Uneven().items[1], Uneven().items[2]]] }

  lemma NotWhenUneven()
    ensures PlanOk(Uneven()) && Flatten(Better()) == Uneven().items
    ensures forall i | 0 <= i < |Better()| :: 0 < |Better()[i]| <= Uneven().maxBatch
    ensures TotalWaste(Subbatches(Uneven(), 0)) == 4 && TotalWaste(Better()) == 0
  {
    var plan := Uneven();
    var a, b, c := plan.items[0], plan.items[1], plan.items[2];
    assert Better()[1..] == [[b, c]] && [[b, c]][1..] == [];
    assert Flatten([[b, c]]) == [b, c] + Flatten([]);
    UnevenCut();
    hide Subbatches, Slice, SubbatchCount, Flatten;
    WasteOfTwo(a, b);
    WasteOfTwo(b, c);
    WasteOfOne(a);
    WasteOfOne(c);
    WasteOfGroups([a, b], [c]);
    WasteOfGroups([a], [b, c]);
  }

  lemma UnevenCut()
    ensures var items := Uneven().items; Subbatches(Uneven(), 0) == [[items[0], items[1]], [items[2]]]
  {
    var plan := Uneven();
    assert SubbatchCount(plan) == 2;
    assert Slice(plan, 0) == [plan.items[0], plan.items[1]] && Slice(plan, 1) == [plan.items[2]];
    assert Subbatches(plan, 1) == [[plan.items[2]]];
  }

  lemma WasteOfGroups(a: seq<Item>, b: seq<Item>)
    ensures TotalWaste([a, b]) == Waste(a) + Waste(b)
  {
    assert [a, b][1..] == [b] && [b][1..] == [];
    assert TotalWaste([b]) == Waste(b) + TotalWaste([]);
  }

  lemma WasteOfOne(a: Item)
    ensures Waste([a]) == 0
  {
    assert [a][..0] == [];
    assert Longest([a]) == Max(Longest([]), |a.ids|) == |a.ids| && Tokens([a]) == Tokens([]) + |a.ids|;
  }

  lemma WasteOfTwo(a: Item, b: Item)
    requires |a.ids| <= |b.ids|
    ensures Waste([a, b]) == |b.ids| - |a.ids|
  {
    WasteOfOne(a);
    assert [a, b][..1] == [a];
    assert Longest([a, b]) == Max(Longest([a]), |b.ids|) && Tokens([a, b]) == Tokens([a]) + |b.ids|;
    assert Longest([a]) == |a.ids| by { assert [a][..0] == []; }
  }
}
