// Cutting a layer's units into runs: whole, one by one, by stage, or greedily
// under a byte budget with 64-bit sums.
module Partition {
  import opened Prelude
  import opened Slots

  datatype Stage = AttentionStage | FfnStage | OtherStage

  datatype PartitionError = Disagree | NoUnits | BadBudget | ZeroBudget | UnknownPreset

  // Runs are non-empty and cover n units.
  ghost predicate Cut(runs: seq<nat>, n: nat) {
    Total(runs) == n && forall g | 0 <= g < |runs| :: runs[g] > 0
  }

  // ---- Budgets ----

  function Wrap(x: nat): (y: nat)
    ensures y <= SIZE_MAX && (x <= SIZE_MAX ==> y == x)
  {
    x % (SIZE_MAX + 1)
  }

  function Sum(w: seq<nat>, from: nat, to: nat): nat
    requires from <= to <= |w|
  {
    if from == to then 0 else Sum(w, from, to - 1) + w[to - 1]
  }

  // Each run is a single unit, or its bytes fit.
  ghost predicate Within(w: seq<nat>, runs: seq<nat>, budget: nat) {
    && Total(runs) <= |w|
    && forall g | 0 <= g < |runs| :: RunFits(w, runs, budget, g)
  }

  ghost predicate RunFits(w: seq<nat>, runs: seq<nat>, budget: nat, g: nat)
    requires g < |runs|
  {
    Start(runs, g) + runs[g] <= |w| && (runs[g] == 1 || Sum(w, Start(runs, g), Start(runs, g) + runs[g]) <= budget)
  }

  function Grown(runs: seq<nat>): seq<nat>
    requires runs != []
  {
    runs[..|runs| - 1] + [Last(runs) + 1]
  }

  datatype Packing = Packing(runs: seq<nat>, running: nat)

  // One more unit joins the open run if the sum stays within budget.
  function Next(p: Packing, bytes: nat, budget: nat, wrap: bool): (next: Packing)
    requires p.runs != []
    ensures next.runs != []
  {
    var sum := if wrap then Wrap(p.running + bytes) else p.running + bytes;
    if sum <= budget then Packing(Grown(p.runs), sum) else Packing(p.runs + [1], bytes)
  }

  // The greedy rule after n units; sums wrap when `wrap` is set.
  function Greedy(w: seq<nat>, budget: nat, n: nat, wrap: bool): (p: Packing)
    requires 0 < n <= |w|
    ensures p.runs != []
  {
    if n == 1 then Packing([1], w[0]) else Next(Greedy(w, budget, n - 1, wrap), w[n - 1], budget, wrap)
  }

  // Some exact sum the rule looks at passes 64 bits and comes back under the budget.
  ghost predicate Overruns(w: seq<nat>, budget: nat) {
    exists n :: 0 < n < |w| && OverrunsAt(w, budget, n)
  }

  ghost predicate OverrunsAt(w: seq<nat>, budget: nat, n: nat)
    requires 0 < n < |w|
  {
    var sum := Greedy(w, budget, n, false).running + w[n];
    sum > SIZE_MAX && Wrap(sum) <= budget
  }

  lemma TotalAppend(runs: seq<nat>, x: nat)
    ensures Total(runs + [x]) == Total(runs) + x
  {
    assert (runs + [x])[..|runs|] == runs;
  }

  lemma TotalGrown(runs: seq<nat>)
    requires runs != []
    ensures Total(Grown(runs)) == Total(runs) + 1
  {
    TotalAppend(runs[..|runs| - 1], Last(runs) + 1);
  }

  lemma FitsAlike(w: seq<nat>, a: seq<nat>, b: seq<nat>, budget: nat, g: nat)
    requires g < |a| && g < |b| && a[..g + 1] == b[..g + 1]
    ensures RunFits(w, a, budget, g) == RunFits(w, b, budget, g)
  {
    assert a[g] == a[..g + 1][g] == b[g];
    assert a[..g] == a[..g + 1][..g] == b[..g];
  }

  // What the exact rule keeps: within budget, and the open run's bytes known.
  ghost predicate Packed(w: seq<nat>, budget: nat, n: nat, p: Packing) {
    && n <= |w| && Cut(p.runs, n) && Within(w, p.runs, budget)
    && p.runs != [] && Last(p.runs) <= n && p.running == Sum(w, n - Last(p.runs), n)
  }

  lemma {:induction false} GreedyWithin(w: seq<nat>, budget: nat, n: nat)
    requires 0 < n <= |w|
    ensures Packed(w, budget, n, Greedy(w, budget, n, false))
  {
    if n == 1 {
      TotalAppend([], 1);
      assert [1][..0] == [];
      assert Sum(w, 0, 1) == Sum(w, 0, 0) + w[0];
    } else {
      GreedyWithin(w, budget, n - 1);
      NextPacked(w, budget, n, Greedy(w, budget, n - 1, false));
    }
  }

  lemma NextPacked(w: seq<nat>, budget: nat, n: nat, q: Packing)
    requires 1 < n <= |w| && Packed(w, budget, n - 1, q)
    ensures Packed(w, budget, n, Next(q, w[n - 1], budget, false))
  {
    hide Total, Sum, RunFits, Wrap, Start;
    var p := Next(q, w[n - 1], budget, false);
    TotalGrown(q.runs);
    TotalAppend(q.runs, 1);
    SumNext(w, n - Last(p.runs), n);
    SumNext(w, n - 1, n);
    OldRunsFit(w, q.runs, p.runs, budget);
    LastFits(w, p.runs, budget, n);
  }

  lemma SumNext(w: seq<nat>, from: nat, to: nat)
    requires from < to <= |w|
    ensures Sum(w, from, to) == Sum(w, from, to - 1) + w[to - 1] && Sum(w, from, from) == 0
  {
  }

  lemma LastFits(w: seq<nat>, runs: seq<nat>, budget: nat, n: nat)
    requires runs != [] && Total(runs) == n <= |w| && Last(runs) <= n
    requires Last(runs) == 1 || Sum(w, n - Last(runs), n) <= budget
    ensures RunFits(w, runs, budget, |runs| - 1)
  {
    LastRun(runs);
  }

  // All runs but the last are as before.
  lemma OldRunsFit(w: seq<nat>, q: seq<nat>, p: seq<nat>, budget: nat)
    requires q != [] && Within(w, q, budget) && (p == Grown(q) || p == q + [1]) && forall g | 0 <= g < |q| :: q[g] > 0
    ensures forall g | 0 <= g < |p| - 1 :: RunFits(w, p, budget, g) && p[g] > 0
  {
    forall g | 0 <= g < |p| - 1 ensures RunFits(w, p, budget, g) && p[g] > 0 {
      assert RunFits(w, q, budget, g);
      FitsAlike(w, q, p, budget, g);
    }
  }

  lemma LastRun(runs: seq<nat>)
    requires runs != []
    ensures Start(runs, |runs| - 1) + Last(runs) == Total(runs)
  {
  }

  lemma {:induction false} SumSplit(w: seq<nat>, from: nat, mid: nat, to: nat)
    requires from <= mid <= to <= |w|
    ensures Sum(w, from, to) == Sum(w, from, mid) + Sum(w, mid, to)
  {
    if mid < to { SumSplit(w, from, mid, to - 1); }
  }

  function Shrunk(runs: seq<nat>): seq<nat>
    requires runs != [] && Last(runs) > 0
  {
    if Last(runs) == 1 then runs[..|runs| - 1] else runs[..|runs| - 1] + [Last(runs) - 1]
  }

  lemma ShrunkWithin(w: seq<nat>, runs: seq<nat>, budget: nat, n: nat)
    requires n > 0 && n <= |w| && Cut(runs, n) && Within(w, runs, budget)
    ensures runs != [] && Cut(Shrunk(runs), n - 1) && Within(w, Shrunk(runs), budget)
  {
    hide Total, Sum, RunFits, Start;
    SomeRun(runs);
    var less, k := Shrunk(runs), |runs| - 1;
    TotalAppend(runs[..k], Last(runs));
    TotalAppend(runs[..k], Last(runs) - 1);
    assert runs == runs[..k] + [Last(runs)];
    forall g | 0 <= g < |less| ensures RunFits(w, less, budget, g) && less[g] > 0 {
      assert RunFits(w, runs, budget, g);
      if g < k { FitsAlike(w, runs, less, budget, g); } else { ShrunkFits(w, runs, budget, n); }
    }
  }

  lemma SomeRun(runs: seq<nat>)
    requires Total(runs) > 0
    ensures runs != []
  {
  }

  lemma ShrunkFits(w: seq<nat>, runs: seq<nat>, budget: nat, n: nat)
    requires 0 < n <= |w| && Total(runs) == n && runs != [] && Last(runs) > 1 && RunFits(w, runs, budget, |runs| - 1)
    requires Total(Shrunk(runs)) == n - 1
    ensures RunFits(w, Shrunk(runs), budget, |runs| - 1)
  {
    hide Total;
    LastRun(runs);
    SumNext(w, n - Last(runs), n);
    LastFits(w, Shrunk(runs), budget, n - 1);
  }

  // Greedy stays ahead: no other cut uses fewer runs, and one with as many opened its
  // last run no later.
  lemma {:induction false} GreedyAhead(w: seq<nat>, budget: nat, n: nat, other: seq<nat>)
    requires 0 < n <= |w| && Cut(other, n) && Within(w, other, budget)
    ensures var p := Greedy(w, budget, n, false);
      && other != [] && |p.runs| <= |other|
      && (|p.runs| == |other| ==> Last(p.runs) <= Last(other))
  {
    GreedyWithin(w, budget, n);
    ShrunkWithin(w, other, budget, n);
    if n == 1 {
      LastRun(other);
    } else {
      GreedyAhead(w, budget, n - 1, Shrunk(other));
      GreedyWithin(w, budget, n - 1);
      GreedyStep(w, budget, n, other);
    }
  }

  lemma GreedyStep(w: seq<nat>, budget: nat, n: nat, other: seq<nat>)
    requires 1 < n <= |w| && Cut(other, n) && Within(w, other, budget) && other != [] && Shrunk(other) != []
    requires var q := Greedy(w, budget, n - 1, false);
      && Packed(w, budget, n - 1, q)
      && |q.runs| <= |Shrunk(other)| && (|q.runs| == |Shrunk(other)| ==> Last(q.runs) <= Last(Shrunk(other)))
    ensures var p := Greedy(w, budget, n, false);
      |p.runs| <= |other| && (|p.runs| == |other| ==> Last(p.runs) <= Last(other))
  {
    var q := Greedy(w, budget, n - 1, false);
    assert Greedy(w, budget, n, false) == Next(q, w[n - 1], budget, false);
    hide Greedy, Packed, Within, Cut, Wrap;
    if Last(other) > 1 && |q.runs| == |other| { RoomLeft(w, budget, n, other, q); }
  }

  // A last run no longer than the other partition’s still has room for the unit that one takes.
  lemma RoomLeft(w: seq<nat>, budget: nat, n: nat, other: seq<nat>, q: Packing)
    requires 1 < n <= |w| && Cut(other, n) && Within(w, other, budget) && other != [] && Last(other) > 1
    requires Packed(w, budget, n - 1, q) && Last(q.runs) < Last(other)
    ensures q.running + w[n - 1] <= budget
  {
    hide Sum, Start, Total;
    LastRun(other);
    assert RunFits(w, other, budget, |other| - 1);
    var from, since := n - Last(other), n - 1 - Last(q.runs);
    SumNext(w, since, n);
    SumSplit(w, from, since, n);
  }

  // ---- Wrapping sums ----

  lemma {:induction false} SameUntilOverrun(w: seq<nat>, budget: nat, n: nat)
    requires 0 < n <= |w| && budget <= SIZE_MAX && forall i | 0 <= i < |w| :: w[i] <= SIZE_MAX
    requires forall m | 0 < m < n :: !OverrunsAt(w, budget, m)
    ensures Greedy(w, budget, n, true) == Greedy(w, budget, n, false)
  {
    if n > 1 {
      SameUntilOverrun(w, budget, n - 1);
      assert !OverrunsAt(w, budget, n - 1);
    }
  }

  // Runs once closed stay, and an open run only grows.
  ghost predicate Extends(p: seq<nat>, q: seq<nat>) {
    && p != [] && |p| <= |q| && p[..|p| - 1] == q[..|p| - 1] && Last(p) <= q[|p| - 1]
  }

  lemma {:induction false} GreedyExtends(w: seq<nat>, budget: nat, n: nat, m: nat)
    requires 0 < n <= m <= |w|
    ensures Extends(Greedy(w, budget, n, true).runs, Greedy(w, budget, m, true).runs)
  {
    if n < m {
      GreedyExtends(w, budget, n, m - 1);
      var p, q := Greedy(w, budget, n, true), Greedy(w, budget, m - 1, true);
      assert Greedy(w, budget, m, true) == Next(q, w[m - 1], budget, true);
      hide Greedy;
      NextExtends(p.runs, q, w[m - 1], budget);
    }
  }

  lemma NextExtends(runs: seq<nat>, q: Packing, bytes: nat, budget: nat)
    requires q.runs != [] && Extends(runs, q.runs)
    ensures Extends(runs, Next(q, bytes, budget, true).runs)
  {
    hide Wrap;
  }

  lemma {:induction false} WrappedCut(w: seq<nat>, budget: nat, n: nat)
    requires 0 < n <= |w|
    ensures Cut(Greedy(w, budget, n, true).runs, n)
  {
    if n == 1 {
      TotalAppend([], 1);
    } else {
      WrappedCut(w, budget, n - 1);
      var q := Greedy(w, budget, n - 1, true).runs;
      TotalGrown(q);
      TotalAppend(q, 1);
    }
  }

  lemma {:induction false} FirstOverrun(w: seq<nat>, budget: nat, n: nat) returns (first: nat)
    requires 0 < n < |w| && OverrunsAt(w, budget, n)
    ensures 0 < first <= n && OverrunsAt(w, budget, first) && forall m | 0 < m < first :: !OverrunsAt(w, budget, m)
  {
    if m :| 0 < m < n && OverrunsAt(w, budget, m) { first := FirstOverrun(w, budget, m); } else { first := n; }
  }

  // A run that swallowed a wrapped sum is over budget for good.
  lemma OverrunBreaks(w: seq<nat>, budget: nat, n: nat)
    requires 0 < n < |w| && budget <= SIZE_MAX && OverrunsAt(w, budget, n)
    requires Greedy(w, budget, n, true) == Greedy(w, budget, n, false)
    ensures !Within(w, Greedy(w, budget, |w|, true).runs, budget)
  {
    hide Total, Sum, RunFits, Wrap, Start;
    var before, all := Greedy(w, budget, n, true), Greedy(w, budget, |w|, true).runs;
    var after := Greedy(w, budget, n + 1, true).runs;
    assert after == Grown(before.runs) by { OverrunGrows(w, budget, n); }
    GreedyWithin(w, budget, n);
    GreedyExtends(w, budget, n + 1, |w|);
    var g := |after| - 1;
    OpenRunStart(before.runs, all, n);
    TooMuch(w, budget, n, all, g);
  }

  lemma OverrunGrows(w: seq<nat>, budget: nat, n: nat)
    requires 0 < n < |w| && OverrunsAt(w, budget, n) && Greedy(w, budget, n, true) == Greedy(w, budget, n, false)
    ensures Greedy(w, budget, n + 1, true).runs == Grown(Greedy(w, budget, n, true).runs)
  {
  }

  lemma OpenRunStart(p: seq<nat>, all: seq<nat>, n: nat)
    requires p != [] && Total(p) == n && Extends(Grown(p), all) && Last(p) <= n
    ensures Start(all, |p| - 1) == n - Last(p) && all[|p| - 1] > Last(p)
  {
    LastRun(p);
    var g := |p| - 1;
    assert p[..g] == Grown(p)[..g] == all[..g];
  }

  lemma TooMuch(w: seq<nat>, budget: nat, n: nat, all: seq<nat>, g: nat)
    requires 0 < n < |w| && g < |all| && Packed(w, budget, n, Greedy(w, budget, n, false)) && budget <= SIZE_MAX
    requires OverrunsAt(w, budget, n)
    requires var open := Last(Greedy(w, budget, n, false).runs); Start(all, g) == n - open && all[g] > open > 0
    ensures !RunFits(w, all, budget, g)
  {
    hide Wrap, Within, Cut, Total;
    var from := Start(all, g);
    if from + all[g] <= |w| {
      SumNext(w, from, n + 1);
      SumSplit(w, from, n + 1, from + all[g]);
    }
  }

  // With 64-bit sums the runs keep within budget exactly when no sum the rule looks
  // at passes 64 bits and comes back under the budget.
  lemma BudgetKept(w: seq<nat>, budget: nat)
    requires w != [] && budget <= SIZE_MAX && forall i | 0 <= i < |w| :: w[i] <= SIZE_MAX
    ensures Within(w, Greedy(w, budget, |w|, true).runs, budget) <==> !Overruns(w, budget)
    ensures !Overruns(w, budget) ==> Greedy(w, budget, |w|, true) == Greedy(w, budget, |w|, false)
  {
    if Overruns(w, budget) {
      var n :| 0 < n < |w| && OverrunsAt(w, budget, n);
      var first := FirstOverrun(w, budget, n);
      SameUntilOverrun(w, budget, first);
      OverrunBreaks(w, budget, first);
    } else {
      SameUntilOverrun(w, budget, |w|);
      GreedyWithin(w, budget, |w|);
    }
  }

  // Byte sums that fit 64 bits never overrun.
  lemma SmallSumsKeep(w: seq<nat>, budget: nat)
    requires Sum(w, 0, |w|) <= SIZE_MAX
    ensures !Overruns(w, budget)
  {
    forall n | 0 < n < |w| ensures !OverrunsAt(w, budget, n) {
      GreedyWithin(w, budget, n);
      var p := Greedy(w, budget, n, false);
      var from := n - Last(p.runs);
      SumSplit(w, 0, from, n + 1);
      SumSplit(w, 0, n + 1, |w|);
      assert Sum(w, from, n + 1) == Sum(w, from, n) + w[n];
    }
  }

  // Sums that wrap can break the budget: two halves of 2^64 wrap to nothing.
  lemma WrapBreaksBudget()
    ensures var w := [0x8000_0000_0000_0000, 0x8000_0000_0000_0000];
      Overruns(w, 1) && !Within(w, Greedy(w, 1, 2, true).runs, 1)
  {
    var w := [0x8000_0000_0000_0000, 0x8000_0000_0000_0000];
    assert Greedy(w, 1, 1, false) == Packing([1], w[0]);
    assert OverrunsAt(w, 1, 1);
    BudgetKept(w, 1);
  }

  // ---- Presets ----

  predicate Digit(c: char) { '0' <= c <= '9' }

  function Decimal(digits: string): nat {
    if digits == [] then 0
    else 10 * Decimal(digits[..|digits| - 1]) + (if Digit(Last(digits)) then (Last(digits) - '0') as nat else 0)
  }

  // The C library stops at the largest value.
  function Saturated(digits: string): nat { Min(Decimal(digits), SIZE_MAX) }

  // Runs of equal stages, as long as they can be.
  ghost predicate StageRuns(stages: seq<Stage>, runs: seq<nat>) {
    && Cut(runs, |stages|)
    && forall g | 0 <= g < |runs| :: StageRun(stages, runs, g)
  }

  ghost predicate StageRun(stages: seq<Stage>, runs: seq<nat>, g: nat)
    requires g < |runs|
  {
    var (from, to) := (Start(runs, g), Start(runs, g) + runs[g]);
    && from < to <= |stages|
    && (forall i | from <= i < to :: stages[i] == stages[from])
    && (0 < from ==> stages[from] != stages[from - 1])
  }

  lemma StageNext(stages: seq<Stage>, q: seq<nat>, p: seq<nat>, i: nat)
    requires 0 < i < |stages| && q != [] && Cut(q, i) && forall g | 0 <= g < |q| :: StageRun(stages, q, g)
    requires p == if stages[i] != stages[i - 1] then q + [1] else Grown(q)
    ensures forall g | 0 <= g < |p| :: StageRun(stages, p, g)
  {
    hide Total, StageRun, Start;
    forall g | 0 <= g < |p| ensures StageRun(stages, p, g) {
      if g < |p| - 1 { StageCarry(stages, q, p, g); } else { StageLast(stages, q, p, i); }
    }
  }

  lemma StageCarry(stages: seq<Stage>, q: seq<nat>, p: seq<nat>, g: nat)
    requires g < |q| && g < |p| && p[..g + 1] == q[..g + 1] && StageRun(stages, q, g)
    ensures StageRun(stages, p, g)
  {
    hide Total;
    assert p[g] == p[..g + 1][g] == q[g];
    assert p[..g] == p[..g + 1][..g] == q[..g];
  }

  lemma StageLast(stages: seq<Stage>, q: seq<nat>, p: seq<nat>, i: nat)
    requires 0 < i < |stages| && q != [] && Total(q) == i && StageRun(stages, q, |q| - 1)
    requires p == if stages[i] != stages[i - 1] then q + [1] else Grown(q)
    ensures StageRun(stages, p, |p| - 1)
  {
    hide Total, Start;
    LastRun(q);
    LastRun(p);
    TotalAppend(q, 1);
    TotalGrown(q);
  }

  lemma FirstStage(stages: seq<Stage>)
    requires stages != []
    ensures StageRun(stages, [1], 0) && Cut([1], 1)
  {
    assert [1][..0] == [];
    assert Total([1]) == Total([]) + 1;
  }

  method StagePartition(stages: seq<Stage>) returns (runs: seq<nat>)
    requires stages != []
    ensures StageRuns(stages, runs)
  {
    hide Total, StageRun;
    runs := [1];
    FirstStage(stages);
    for i := 1 to |stages|
      invariant runs != [] && Cut(runs, i)
      invariant forall g | 0 <= g < |runs| :: StageRun(stages, runs, g)
    {
      ghost var before := runs;
      TotalAppend(before, 1);
      TotalGrown(before);
      if stages[i] != stages[i - 1] { runs := runs + [1]; } else { runs := runs[..|runs| - 1] + [Last(runs) + 1]; }
      StageNext(stages, before, runs, i);
    }
  }

  // The stages leave one cut only.
  lemma {:induction false} StageRunsUnique(stages: seq<Stage>, a: seq<nat>, b: seq<nat>)
    requires StageRuns(stages, a) && StageRuns(stages, b)
    ensures a == b
  {
    hide StageRun, Cut;
    StagePrefix(stages, a, b, |a|);
    assert a[..|a|] == a;
    if |a| < |b| { CutLonger(a, b, |stages|); }
  }

  lemma CutLonger(a: seq<nat>, b: seq<nat>, n: nat)
    requires Cut(a, n) && |a| < |b| && a == b[..|a|]
    ensures !Cut(b, n)
  {
    hide Total;
    if Cut(b, n) {
      TotalNext(b, |a|);
      TotalPrefix(b, |a| + 1);
    }
  }

  lemma {:induction false} StagePrefix(stages: seq<Stage>, a: seq<nat>, b: seq<nat>, n: nat)
    requires StageRuns(stages, a) && StageRuns(stages, b) && n <= |a|
    ensures n <= |b| && a[..n] == b[..n]
  {
    hide StageRun, Cut;
    if n > 0 {
      var g: nat := n - 1;
      StagePrefix(stages, a, b, g);
      if |b| == g { CutLonger(b, a, |stages|); }
      NotBefore(stages, a, b, g);
      NotBefore(stages, b, a, g);
      assert a[..n] == a[..g] + [a[g]] && b[..n] == b[..g] + [b[g]];
    }
  }

  // A run cannot end where the other cut's run goes on.
  lemma NotBefore(stages: seq<Stage>, a: seq<nat>, b: seq<nat>, g: nat)
    requires StageRuns(stages, a) && StageRuns(stages, b) && g < |a| && g < |b| && a[..g] == b[..g]
    ensures b[g] <= a[g]
  {
    hide Total;
    assert StageRun(stages, a, g) && StageRun(stages, b, g);
    TotalNext(a, g);
    assert g + 1 < |a| ==> StageRun(stages, a, g + 1);
    if g + 1 == |a| { assert a[..g + 1] == a; }
  }

  method BudgetPartition(w: seq<nat>, budget: nat) returns (runs: seq<nat>)
    requires w != []
    ensures runs == Greedy(w, budget, |w|, true).runs
  {
    hide Wrap;
    runs := [1];
    var running := w[0];
    for i := 1 to |w|
      invariant Greedy(w, budget, i, true) == Packing(runs, running)
    {
      assert Greedy(w, budget, i + 1, true) == Next(Packing(runs, running), w[i], budget, true);
      if Wrap(running + w[i]) <= budget {
        running := Wrap(running + w[i]);
        runs := runs[..|runs| - 1] + [Last(runs) + 1];
      } else {
        runs := runs + [1];
        running := w[i];
      }
    }
  }

  predicate Digits(digits: string) { digits != "" && forall i | 0 <= i < |digits| :: Digit(digits[i]) }

  method BudgetPreset(w: seq<nat>, digits: string) returns (r: Result<seq<nat>, PartitionError>)
    requires w != []
    ensures r.Ok? ==> Cut(r.value, |w|)
    ensures
      if !Digits(digits) then r == Err(BadBudget)
      else if Decimal(digits) == 0 then r == Err(ZeroBudget)
      else r == Ok(Greedy(w, Saturated(digits), |w|, true).runs)
  {
    if digits == "" || exists i :: 0 <= i < |digits| && !Digit(digits[i]) { return Err(BadBudget); }
    var budget := Saturated(digits);
    if budget == 0 { return Err(ZeroBudget); }
    var runs := BudgetPartition(w, budget);
    WrappedCut(w, budget, |w|);
    r := Ok(runs);
  }

  predicate IsBudget(preset: string) { "budget:" <= preset }

  method PartitionRuns(w: seq<nat>, stages: seq<Stage>, preset: string) returns (r: Result<seq<nat>, PartitionError>)
    requires forall i | 0 <= i < |w| :: w[i] <= SIZE_MAX
    ensures r == Err(Disagree) <==> |w| != |stages|
    ensures r == Err(NoUnits) <==> |w| == |stages| == 0
    ensures r.Ok? ==> Cut(r.value, |w|)
    ensures |w| == |stages| > 0 ==>
      if preset == "layer" then r == Ok([|w|])
      else if preset == "unit" then r.Ok? && forall g | 0 <= g < |r.value| :: r.value[g] == 1
      else if preset == "attn-ffn" then r.Ok? && StageRuns(stages, r.value)
      else if !IsBudget(preset) then r == Err(UnknownPreset)
      else
        var digits := preset[|"budget:"|..];
        if !Digits(digits) then r == Err(BadBudget)
        else if Decimal(digits) == 0 then r == Err(ZeroBudget)
        else r == Ok(Greedy(w, Min(Decimal(digits), SIZE_MAX), |w|, true).runs)
  {
    hide Digits, Decimal, Greedy, StageRuns, Cut, Total;
    if |w| != |stages| { return Err(Disagree); }
    var n := |w|;
    if n == 0 { return Err(NoUnits); }
    if preset == "layer" {
      OneRun(n);
      return Ok([n]);
    }
    if preset == "unit" {
      var ones := seq(n, _ => 1);
      Ones(ones);
      return Ok(ones);
    }
    if preset == "attn-ffn" {
      var runs := StagePartition(stages);
      assert StageRuns(stages, runs) ==> Cut(runs, n) by { StageRunsCut(stages, runs); }
      return Ok(runs);
    }
    if "budget:" <= preset {
      r := BudgetPreset(w, preset[|"budget:"|..]);
      return;
    }
    r := Err(UnknownPreset);
  }

  lemma OneRun(n: nat)
    requires n > 0
    ensures Cut([n], n)
  {
    assert Total([n]) == Total([]) + n;
  }

  lemma StageRunsCut(stages: seq<Stage>, runs: seq<nat>)
    ensures StageRuns(stages, runs) ==> Cut(runs, |stages|)
  {
  }

  lemma {:induction false} Ones(runs: seq<nat>)
    requires forall g | 0 <= g < |runs| :: runs[g] == 1
    ensures Cut(runs, |runs|)
  {
    if runs != [] { Ones(runs[..|runs| - 1]); }
  }

  // The budget preset, whenever byte sums fit: within budget, and with the fewest runs.
  lemma FewestRuns(w: seq<nat>, budget: nat, other: seq<nat>)
    requires w != [] && budget <= SIZE_MAX && forall i | 0 <= i < |w| :: w[i] <= SIZE_MAX
    requires !Overruns(w, budget) && Cut(other, |w|) && Within(w, other, budget)
    ensures var runs := Greedy(w, budget, |w|, true).runs;
      Cut(runs, |w|) && Within(w, runs, budget) && |runs| <= |other|
  {
    BudgetKept(w, budget);
    GreedyWithin(w, budget, |w|);
    GreedyAhead(w, budget, |w|, other);
  }

  // ---- Budgets in digits ----

  // A number written in decimal.
  function Written(n: nat): (digits: string)
    ensures Digits(digits)
  {
    if n < 10 then ["0123456789"[n]] else Written(n / 10) + ["0123456789"[n % 10]]
  }

  lemma {:induction false} DecimalReads(n: nat)
    ensures Decimal(Written(n)) == n
  {
    DigitReads(n % 10);
    if n >= 10 {
      DecimalReads(n / 10);
      DecimalAppends(Written(n / 10), "0123456789"[n % 10]);
    } else {
      assert Written(n) == [] + ["0123456789"[n]];
      DecimalAppends([], "0123456789"[n]);
    }
  }

  // And the only digits there are: a numeral without leading zeros is that of its number.
  lemma {:induction false} DecimalWrites(digits: string)
    requires Digits(digits) && (|digits| == 1 || digits[0] != '0')
    ensures Written(Decimal(digits)) == digits && (|digits| > 1 ==> Decimal(digits) >= 10)
  {
    hide Decimal, Written;
    var front, c := digits[..|digits| - 1], Last(digits);
    assert digits == front + [c];
    DecimalAppends(front, c);
    DigitWrites(c);
    NoDigits();
    WrittenAppends(Decimal(front), (c - '0') as nat);
    if front != [] {
      DecimalWrites(front);
      if |front| == 1 {
        NotZero(front[0]);
        assert front == [] + [front[0]];
        DecimalAppends([], front[0]);
      }
    }
  }

  lemma NoDigits()
    ensures Decimal([]) == 0
  {
  }

  lemma WrittenAppends(n: nat, d: nat)
    requires d < 10
    ensures Written(10 * n + d) == (if n == 0 then [] else Written(n)) + ["0123456789"[d]]
  {
  }

  lemma NotZero(c: char)
    requires Digit(c) && c != '0'
    ensures (c - '0') as nat >= 1
  {
  }

  lemma DigitWrites(c: char)
    requires Digit(c)
    ensures (c - '0') as nat < 10 && "0123456789"[(c - '0') as nat] == c
  {
  }

  lemma DigitReads(d: nat)
    requires d < 10
    ensures var c := "0123456789"[d]; Digit(c) && (c - '0') as nat == d
  {
  }

  lemma DecimalAppends(digits: string, c: char)
    requires Digit(c)
    ensures Decimal(digits + [c]) == 10 * Decimal(digits) + (c - '0') as nat
  {
    assert (digits + [c])[..|digits|] == digits;
  }
}
