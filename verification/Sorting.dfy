// Insertion sort by a strict order; what it yields is all that is said of std::sort.
module Sorting {

  function Insert<T>(before: (T, T) -> bool, x: T, sorted: seq<T>): (out: seq<T>)
    ensures |out| == |sorted| + 1
  {
    if sorted == [] || before(x, sorted[0]) then [x] + sorted else [sorted[0]] + Insert(before, x, sorted[1..])
  }

  function Sort<T>(before: (T, T) -> bool, xs: seq<T>): (out: seq<T>)
    ensures |out| == |xs|
  {
    if xs == [] then [] else Insert(before, xs[0], Sort(before, xs[1..]))
  }

  lemma {:induction false} InsertMembers<T>(before: (T, T) -> bool, x: T, sorted: seq<T>)
    ensures multiset(Insert(before, x, sorted)) == multiset(sorted) + multiset{x}
  {
    if sorted != [] && !before(x, sorted[0]) {
      InsertMembers(before, x, sorted[1..]);
      assert sorted == [sorted[0]] + sorted[1..];
    }
  }

  lemma {:induction false} SortMembers<T>(before: (T, T) -> bool, xs: seq<T>)
    ensures multiset(Sort(before, xs)) == multiset(xs)
    ensures forall x :: x in Sort(before, xs) <==> x in xs
  {
    if xs != [] {
      SortMembers(before, xs[1..]);
      InsertMembers(before, xs[0], Sort(before, xs[1..]));
      assert xs == [xs[0]] + xs[1..];
    }
    assert forall x :: x in Sort(before, xs) <==> x in multiset(Sort(before, xs));
    assert forall x :: x in xs <==> x in multiset(xs);
  }

  // No element stands after one it should precede.
  ghost predicate InOrder<T>(before: (T, T) -> bool, s: seq<T>) {
    forall i, j | 0 <= i < j < |s| :: !before(s[j], s[i])
  }

  // A strict order in which incomparable elements are alike.
  ghost predicate StrictOrder<T(!new)>(before: (T, T) -> bool) {
    && (forall a, b | before(a, b) :: !before(b, a))
    && forall a, b, c | !before(b, a) && !before(c, b) :: !before(c, a)
  }

  lemma {:induction false} InsertOrders<T(!new)>(before: (T, T) -> bool, x: T, sorted: seq<T>)
    requires StrictOrder(before) && InOrder(before, sorted)
    ensures InOrder(before, Insert(before, x, sorted))
  {
    if sorted != [] {
      if before(x, sorted[0]) {
        forall j | 0 <= j < |sorted| ensures !before(sorted[j], x) {
          if j > 0 { assert !before(sorted[j], sorted[0]) && !before(sorted[0], x); }
        }
      } else {
        InsertOrders(before, x, sorted[1..]);
        InsertMembers(before, x, sorted[1..]);
        var tail := Insert(before, x, sorted[1..]);
        forall j | 0 <= j < |tail| ensures !before(tail[j], sorted[0]) {
          assert tail[j] in multiset(tail);
          assert tail[j] == x || tail[j] in sorted[1..];
        }
      }
    }
  }

  lemma {:induction false} SortOrders<T(!new)>(before: (T, T) -> bool, xs: seq<T>)
    requires StrictOrder(before)
    ensures InOrder(before, Sort(before, xs))
  {
    if xs != [] {
      SortOrders(before, xs[1..]);
      InsertOrders(before, xs[0], Sort(before, xs[1..]));
    }
  }
}
