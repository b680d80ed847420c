// Exactly when cutting the sorted texts in order wastes the least: when the texts fill
// their sub-batches, or all fit one.
module PaddingLimit {
  import opened Prelude
  import opened Batch
  import opened Padding

  // Another way to divide the texts over as many groups, none larger than allowed.
  ghost predicate Spread(groups: seq<seq<Item>>, plan: Plan)
    requires plan.maxBatch > 0
  {
    && |groups| == SubbatchCount(plan)
    && (forall i | 0 <= i < |groups| :: |groups[i]| <= plan.maxBatch)
    && multiset(Flatten(groups)) == multiset(plan.items)
  }

  ghost predicate WastesLeast(plan: Plan)
    requires plan.maxBatch > 0
  {
    forall groups | Spread(groups, plan) :: TotalWaste(Subbatches(plan, 0)) <= TotalWaste(groups)
  }

  // For n texts of any lengths, m at a time.
  ghost predicate AlwaysLeast(n: nat, m: nat)
    requires m > 0
  {
    forall plan: Plan | |plan.items| == n && plan.maxBatch == m && PlanOk(plan) :: WastesLeast(plan)
  }

  lemma AlwaysLeastExactly(n: nat, m: nat)
    requires m > 0
    ensures AlwaysLeast(n, m) <==> n % m == 0 || n < m
  {
    hide AlwaysLeast;
    if n % m == 0 || n < m { LeastWhenEven(n, m); } else { WorseWhenUneven(n, m); }
  }

  lemma LeastWhenEven(n: nat, m: nat)
    requires m > 0 && (n % m == 0 || n < m)
    ensures AlwaysLeast(n, m)
  {
    hide SubbatchCount, Subbatches, TotalWaste, Flatten, PlanOk;
    forall plan: Plan | |plan.items| == n && plan.maxBatch == m && PlanOk(plan) ensures WastesLeast(plan) {
      forall groups | Spread(groups, plan) ensures TotalWaste(Subbatches(plan, 0)) <= TotalWaste(groups) {
        if n % m == 0 { FullIsBest(plan, groups); } else { OneGroupOnly(plan, groups); }
      }
    }
  }

  lemma WorseWhenUneven(n: nat, m: nat)
    requires m > 0 && n % m != 0 && n > m
    ensures !AlwaysLeast(n, m)
  {
    hide SubbatchCount, Subbatches, TotalWaste, Flatten, PlanOk;
    var plan, groups := SomeWorse(n, m);
    assert Spread(groups, plan) && !WastesLeast(plan);
  }

  // ---- Full sub-batches ----

  lemma {:induction false} FlattenAtMost(groups: seq<seq<Item>>, m: nat)
    requires forall i | 0 <= i < |groups| :: |groups[i]| <= m
    ensures |Flatten(groups)| <= m * |groups|
    ensures |Flatten(groups)| == m * |groups| ==> forall i | 0 <= i < |groups| :: |groups[i]| == m
  {
    if groups != [] {
      FlattenAtMost(groups[1..], m);
      Distribute(m, |groups| - 1);
      if |Flatten(groups)| == m * |groups| {
        forall i | 0 <= i < |groups| ensures |groups[i]| == m {
          if i > 0 { assert groups[i] == groups[1..][i - 1]; }
        }
      }
    }
  }

  lemma CountExact(plan: Plan)
    requires plan.maxBatch > 0 && |plan.items| % plan.maxBatch == 0
    ensures plan.maxBatch * SubbatchCount(plan) == |plan.items|
  {
    OwnGroups(plan);
    FlattenSize(Subbatches(plan, 0), plan.maxBatch);
  }

  lemma FullIsBest(plan: Plan, groups: seq<seq<Item>>)
    requires plan.maxBatch > 0 && PlanOk(plan) && |plan.items| % plan.maxBatch == 0 && Spread(groups, plan)
    ensures TotalWaste(Subbatches(plan, 0)) <= TotalWaste(groups)
  {
    hide TotalWaste, SubbatchCount, Subbatches, PlanOk;
    CountExact(plan);
    AtLeastPermuted(Flatten(groups), plan.items, 0);
    FlattenAtMost(groups, plan.maxBatch);
    SortedIsBest(plan, groups);
  }

  // ---- A single sub-batch ----

  lemma OneGroupOnly(plan: Plan, groups: seq<seq<Item>>)
    requires 0 < |plan.items| < plan.maxBatch && Spread(groups, plan)
    ensures TotalWaste(Subbatches(plan, 0)) <= TotalWaste(groups)
  {
    assert SubbatchCount(plan) == 1;
    assert Slice(plan, 0) == plan.items;
    assert Subbatches(plan, 0) == [plan.items];
    WasteOfSingle(plan.items);
    WasteOfSingle(groups[0]);
    assert groups == [groups[0]];
    assert Flatten(groups) == groups[0] + Flatten(groups[1..]) == groups[0];
    SameWaste(plan.items, groups[0]);
  }

  lemma WasteOfSingle(group: seq<Item>)
    ensures TotalWaste([group]) == Waste(group)
  {
    assert [group][1..] == [] && TotalWaste([]) == 0;
  }

  lemma SameLongest(a: seq<Item>, b: seq<Item>)
    requires multiset(a) == multiset(b)
    ensures Longest(a) <= Longest(b)
  {
    hide Longest;
    forall i | 0 <= i < |a| ensures a[i] in b { assert a[i] in multiset(a); }
    LongestCapped(a, Longest(b));
  }

  lemma SameWaste(a: seq<Item>, b: seq<Item>)
    requires multiset(a) == multiset(b)
    ensures Waste(a) == Waste(b)
  {
    AtLeastPermuted(a, b, 0);
    SameLongest(a, b);
    SameLongest(b, a);
  }

  // ---- Where it fails ----

  // n texts, the first r of one token, the others of two.
  function Mixed(n: nat, r: nat): (items: seq<Item>)
    ensures |items| == n && forall i | 0 <= i < n :: |items[i].ids| == if i < r then 1 else 2
  {
    seq(n, i requires 0 <= i < n => Item(if i < r then [7] else [7, 7], i))
  }

  // Groups of m, in order.
  function Chunks(items: seq<Item>, m: nat): (groups: seq<seq<Item>>)
    requires m > 0
  {
    if |items| < m then [] else [items[..m]] + Chunks(items[m..], m)
  }

  lemma {:induction false} ChunksTile(items: seq<Item>, m: nat, q: nat)
    requires m > 0 && |items| == m * q
    ensures |Chunks(items, m)| == q && Flatten(Chunks(items, m)) == items
    ensures forall i | 0 <= i < q :: |Chunks(items, m)[i]| == m
    decreases q
  {
    if q == 0 {
      assert items == [];
    } else {
      Distribute(m, q - 1);
      ChunksTile(items[m..], m, q - 1);
      assert Chunks(items, m)[1..] == Chunks(items[m..], m);
      assert items == items[..m] + items[m..];
    }
  }

  lemma {:induction false} EvenTokens(group: seq<Item>, length: nat)
    requires forall item | item in group :: |item.ids| == length
    ensures Tokens(group) == |group| * length
  {
    if group != [] {
      assert Last(group) in group;
      EvenTokens(group[..|group| - 1], length);
      Distribute(length, |group| - 1);
    }
  }

  lemma EvenGroup(group: seq<Item>, length: nat)
    requires forall item | item in group :: |item.ids| == length
    ensures Tokens(group) == |group| * length && Waste(group) == 0
  {
    EvenTokens(group, length);
    LongestCapped(group, length);
    if group != [] {
      assert group[0] in group;
      hide Longest;
      assert Longest(group) == length;
    }
  }

  lemma {:induction false} EvenGroups(groups: seq<seq<Item>>, length: nat)
    requires forall item | item in Flatten(groups) :: |item.ids| == length
    ensures TotalWaste(groups) == 0
  {
    if groups != [] {
      EvenGroup(groups[0], length);
      EvenGroups(groups[1..], length);
    }
  }

  lemma {:induction false} TokensAtMost(group: seq<Item>, cap: nat)
    requires forall item | item in group :: |item.ids| <= cap
    ensures Tokens(group) <= |group| * cap
  {
    if group != [] {
      assert Last(group) in group;
      TokensAtMost(group[..|group| - 1], cap);
      Distribute(cap, |group| - 1);
    }
  }

  lemma {:induction false} NoNegativeWaste(groups: seq<seq<Item>>)
    ensures TotalWaste(groups) >= 0
  {
    if groups != [] {
      TokensAtMost(groups[0], Longest(groups[0]));
      NoNegativeWaste(groups[1..]);
    }
  }

  // A group of r short texts and some long ones wastes a cell for each short one.
  lemma MixedGroup(n: nat, r: nat, m: nat)
    requires 0 < r < m <= n
    ensures Waste(Mixed(n, r)[..m]) == r
  {
    var group := Mixed(n, r)[..m];
    var short, long := group[..r], group[r..];
    assert group == short + long;
    EvenGroup(short, 1);
    EvenGroup(long, 2);
    TokensAppend(short, long);
    assert group[m - 1] in group;
    LongestCapped(group, 2);
    assert Longest(group) == 2;
  }

  // The short texts on their own, and the long ones in full groups, waste nothing.
  lemma Apart(n: nat, m: nat) returns (groups: seq<seq<Item>>)
    requires m > 0 && n % m != 0 && n > m
    ensures |groups| == n / m + 1 && Flatten(groups) == Mixed(n, n % m) && TotalWaste(groups) == 0
    ensures forall i | 0 <= i < |groups| :: |groups[i]| <= m
  {
    var r, q := n % m, n / m;
    var items := Mixed(n, r);
    assert |items[r..]| == m * q;
    ChunksTile(items[r..], m, q);
    groups := [items[..r]] + Chunks(items[r..], m);
    assert groups[1..] == Chunks(items[r..], m);
    assert items == items[..r] + items[r..];
    EvenGroup(items[..r], 1);
    EvenGroups(Chunks(items[r..], m), 2);
  }

  lemma CountUneven(plan: Plan)
    requires plan.maxBatch > 0 && |plan.items| % plan.maxBatch != 0
    ensures SubbatchCount(plan) == |plan.items| / plan.maxBatch + 1
  {
    var n, m := |plan.items|, plan.maxBatch;
    DivMod(m, n / m, n % m - 1);
    assert n - 1 == n % m - 1 + m * (n / m);
  }

  lemma SomeWorse(n: nat, m: nat) returns (plan: Plan, groups: seq<seq<Item>>)
    requires m > 0 && n % m != 0 && n > m
    ensures |plan.items| == n && plan.maxBatch == m && PlanOk(plan) && Spread(groups, plan)
    ensures TotalWaste(groups) == 0 < TotalWaste(Subbatches(plan, 0))
  {
    plan := Plan(Mixed(n, n % m), m);
    groups := Apart(n, m);
    CountUneven(plan);
    MixedGroup(n, n % m, m);
    FirstSlice(plan);
    NoNegativeWaste(Subbatches(plan, 1));
  }

  lemma FirstSlice(plan: Plan)
    requires plan.maxBatch > 0 && |plan.items| >= plan.maxBatch
    ensures 1 <= SubbatchCount(plan)
    ensures Subbatches(plan, 0)[1..] == Subbatches(plan, 1)
    ensures TotalWaste(Subbatches(plan, 0)) == Waste(plan.items[..plan.maxBatch]) + TotalWaste(Subbatches(plan, 1))
  {
    SubbatchBounds(plan, 0);
    assert Slice(plan, 0) == plan.items[..plan.maxBatch];
    assert Subbatches(plan, 0)[1..] == Subbatches(plan, 1);
  }
}
