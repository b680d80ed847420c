// Byte ranges of a mapped file: page alignment, coalescing and subtraction.
module Ranges {
  import opened Prelude
  import Sorting

  datatype Range = Range(offset: nat, length: nat) {
    function End(): nat { offset + length }
  }

  datatype RangeError = BadGeometry | EmptyRange | Overflow | OutsideMapping | BadRequest

  // ---- What a list of ranges covers ----

  predicate Inside(r: Range, b: nat) { r.offset <= b < r.End() }

  ghost predicate Covers(rs: seq<Range>, b: nat) {
    exists i :: 0 <= i < |rs| && Inside(rs[i], b)
  }

  ghost predicate SameCover(a: seq<Range>, b: seq<Range>) {
    forall x: nat :: Covers(a, x) <==> Covers(b, x)
  }

  // Sorted, nonempty, with a gap between neighbours.
  ghost predicate Canonical(rs: seq<Range>) {
    && (forall i | 0 <= i < |rs| :: rs[i].length > 0)
    && (forall i, j | 0 <= i < j < |rs| :: rs[i].End() < rs[j].offset)
  }

  lemma CoversAppend(a: seq<Range>, b: seq<Range>, x: nat)
    ensures Covers(a + b, x) <==> Covers(a, x) || Covers(b, x)
  {
    if Covers(a, x) { var i :| 0 <= i < |a| && Inside(a[i], x); assert Inside((a + b)[i], x); }
    if Covers(b, x) { var i :| 0 <= i < |b| && Inside(b[i], x); assert Inside((a + b)[|a| + i], x); }
  }

  lemma CoversOne(r: Range, x: nat)
    ensures Covers([r], x) <==> Inside(r, x)
  {
    if Inside(r, x) { assert Inside([r][0], x); }
  }

  // Two canonical lists that cover the same bytes are the same list.
  lemma {:induction false} CanonicalUnique(a: seq<Range>, b: seq<Range>)
    requires Canonical(a) && Canonical(b) && SameCover(a, b)
    ensures a == b
    decreases |a|
  {
    if a == [] || b == [] {
      if b != [] { FirstCovered(b); }
      if a != [] { FirstCovered(a); }
    } else {
      FirstAgrees(a, b);
      FirstAgrees(b, a);
      forall x: nat
        ensures Covers(a[1..], x) <==> Covers(b[1..], x)
      {
        WithoutFirst(a, x);
        WithoutFirst(b, x);
      }
      CanonicalUnique(a[1..], b[1..]);
    }
  }

  lemma FirstCovered(a: seq<Range>)
    requires Canonical(a) && a != []
    ensures Covers(a, a[0].offset) && !Covers(a, a[0].End())
  {
    assert Inside(a[0], a[0].offset);
  }

  lemma WithoutFirst(a: seq<Range>, x: nat)
    requires Canonical(a) && a != []
    ensures Covers(a[1..], x) <==> Covers(a, x) && !Inside(a[0], x)
  {
    if Covers(a, x) && !Inside(a[0], x) {
      var i :| 0 <= i < |a| && Inside(a[i], x);
      assert Inside(a[1..][i - 1], x);
    }
    if Covers(a[1..], x) {
      var i :| 0 <= i < |a[1..]| && Inside(a[1..][i], x);
      assert Inside(a[i + 1], x);
    }
  }

  // The first run of `a` starts no later than that of `b`, and then ends no later.
  lemma FirstAgrees(a: seq<Range>, b: seq<Range>)
    requires Canonical(a) && Canonical(b) && a != [] && b != [] && SameCover(a, b)
    ensures a[0].offset <= b[0].offset && (a[0].offset == b[0].offset ==> a[0].length <= b[0].length)
  {
    FirstCovered(b);
    var i :| 0 <= i < |a| && Inside(a[i], b[0].offset);
    assert !Inside(a[0], b[0].End());
  }

  // ---- Pages ----

  predicate IsPowerOfTwo(n: nat) {
    n == 1 || (n > 1 && n % 2 == 0 && IsPowerOfTwo(n / 2))
  }

  function Pow2(k: nat): (n: nat)
    ensures n > 0
  {
    if k == 0 then 1 else 2 * Pow2(k - 1)
  }

  lemma {:induction false} PowersOfTwo(n: nat)
    ensures IsPowerOfTwo(n) <==> exists k: nat :: n == Pow2(k)
  {
    if IsPowerOfTwo(n) {
      if n == 1 {
        assert n == Pow2(0);
      } else {
        PowersOfTwo(n / 2);
        var k: nat :| n / 2 == Pow2(k);
        assert n == Pow2(k + 1);
      }
    }
    if k: nat :| n == Pow2(k) { PowerIsOne(k); }
  }

  lemma {:induction false} PowerIsOne(k: nat)
    ensures IsPowerOfTwo(Pow2(k))
  {
    if k > 0 { PowerIsOne(k - 1); }
  }

  predicate Geometry(mapping: nat, page: nat) { mapping > 0 && page > 0 && IsPowerOfTwo(page) }

  function Floor(x: nat, page: nat): (at: nat)
    requires page > 0
    ensures at <= x < at + page
  {
    x - x % page
  }

  function PageOf(x: nat, page: nat): nat requires page > 0 { x / page }

  // Two bytes share a page exactly when their pages start at the same place.
  lemma SamePage(x: nat, y: nat, page: nat)
    requires page > 0
    ensures PageOf(x, page) == PageOf(y, page) <==> Floor(x, page) == Floor(y, page)
  {
    assert Floor(x, page) == PageOf(x, page) * page && Floor(y, page) == PageOf(y, page) * page;
    if PageOf(x, page) != PageOf(y, page) { MulDistinct(PageOf(x, page), PageOf(y, page), page); }
  }

  lemma MulDistinct(p: nat, q: nat, page: nat)
    requires page > 0 && p != q
    ensures p * page != q * page
  {
    if p < q { MulGap(p, q, page); } else { MulGap(q, p, page); }
  }

  // A page start at or below x is at or below x's own page start.
  lemma FloorGreatest(x: nat, y: nat, page: nat)
    requires page > 0 && Floor(y, page) <= x
    ensures Floor(y, page) <= Floor(x, page)
    ensures Floor(x, page) < Floor(y, page) + page ==> Floor(x, page) == Floor(y, page)
  {
    assert Floor(x, page) == PageOf(x, page) * page && Floor(y, page) == PageOf(y, page) * page;
    if PageOf(x, page) < PageOf(y, page) {
      MulGap(PageOf(x, page), PageOf(y, page), page);
    } else if PageOf(x, page) > PageOf(y, page) {
      MulGap(PageOf(y, page), PageOf(x, page), page);
    }
  }

  ghost predicate Aligned(x: nat, page: nat) requires page > 0 { Floor(x, page) == x }

  // Inside the mapping, and nonempty.
  predicate Within(r: Range, mapping: nat) { r.length > 0 && r.End() <= mapping }

  // The pages of a range, the last one clipped to the mapping.
  function Hull(r: Range, mapping: nat, page: nat): (h: Range)
    requires page > 0 && Within(r, mapping)
    ensures h.offset <= r.offset && r.End() <= h.End() <= mapping
  {
    var begin := r.offset - r.offset % page;
    var remainder := r.End() % page;
    var end := if remainder == 0 then r.End()
               else if page - remainder > mapping - r.End() then mapping
               else r.End() + (page - remainder);
    Range(begin, end - begin)
  }

  // Some byte of the range lies on the page of `b`.
  ghost predicate Touches(r: Range, b: nat, page: nat)
    requires page > 0
  {
    exists x :: Inside(r, x) && PageOf(x, page) == PageOf(b, page)
  }

  ghost predicate Touched(rs: seq<Range>, b: nat, page: nat)
    requires page > 0
  {
    exists i :: 0 <= i < |rs| && Touches(rs[i], b, page)
  }

  lemma HullIsPages(r: Range, mapping: nat, page: nat, b: nat)
    requires page > 0 && Within(r, mapping)
    ensures Inside(Hull(r, mapping, page), b) <==> b < mapping && Touches(r, b, page)
  {
    var h := Hull(r, mapping, page);
    if Inside(h, b) {
      // A byte of the range on the page of b: the nearest one.
      var x := if b < r.offset then r.offset else if b >= r.End() then r.End() - 1 else b;
      FloorGreatest(b, r.offset, page);
      if b < r.offset {
        FloorGreatest(r.offset, b, page);
      } else if b >= r.End() {
        LastPage(r, mapping, page, b);
      }
      SamePage(x, b, page);
      assert Inside(r, x) && PageOf(x, page) == PageOf(b, page);
    }
    if b < mapping && Touches(r, b, page) {
      var x :| Inside(r, x) && PageOf(x, page) == PageOf(b, page);
      SamePage(x, b, page);
      FloorGreatest(x, r.offset, page);
      EndPage(r, mapping, page, x);
    }
  }

  // Past the end of the range, the hull stays on the range's last page.
  lemma LastPage(r: Range, mapping: nat, page: nat, b: nat)
    requires page > 0 && Within(r, mapping)
    requires r.End() <= b < Hull(r, mapping, page).End()
    ensures Floor(b, page) == Floor(r.End() - 1, page)
  {
    var last := r.End() - 1;
    var remainder := r.End() % page;
    assert remainder != 0;
    PredecessorFloor(r.End(), page);
    assert b < r.End() + (page - remainder);
    FloorGreatest(b, last, page);
  }

  lemma PredecessorFloor(end: nat, page: nat)
    requires page > 0 && end > 0 && end % page != 0
    ensures Floor(end - 1, page) == end - end % page
  {
    FloorGreatest(end - 1, end, page);
    FloorGreatest(end, end - 1, page);
  }

  // Bytes of the range's pages inside the mapping are below the hull's end.
  lemma EndPage(r: Range, mapping: nat, page: nat, x: nat)
    requires page > 0 && Within(r, mapping) && Inside(r, x)
    ensures forall b: nat | Floor(b, page) == Floor(x, page) && b < mapping :: b < Hull(r, mapping, page).End()
  {
    var end := r.End();
    var remainder := end % page;
    if remainder == 0 {
      forall b: nat | Floor(b, page) == Floor(x, page)
        ensures b < end
      {
        if b >= end { FloorGreatest(b, end, page); }
      }
    } else {
      PredecessorFloor(end, page);
      forall b: nat | Floor(b, page) == Floor(x, page)
        ensures b < end + (page - remainder)
      {
        FloorGreatest(end - 1, x, page);
      }
    }
  }

  // ---- page_align_and_coalesce ----

  // The canonical list of exactly the pages touched, clipped to the mapping.
  ghost predicate Coalesced(out: seq<Range>, ranges: seq<Range>, mapping: nat, page: nat)
    requires page > 0
  {
    && Canonical(out)
    && forall b: nat :: Covers(out, b) <==> b < mapping && Touched(ranges, b, page)
  }

  ghost predicate AllWithin(ranges: seq<Range>, mapping: nat) {
    forall i | 0 <= i < |ranges| :: Within(ranges[i], mapping)
  }

  function Before(a: Range, b: Range): bool { a.offset < b.offset || (a.offset == b.offset && a.length < b.length) }

  ghost predicate ByOffset(rs: seq<Range>) {
    forall i, j | 0 <= i < j < |rs| :: rs[i].offset <= rs[j].offset
  }

  lemma SortKeeps(ranges: seq<Range>)
    ensures ByOffset(Sorting.Sort(Before, ranges))
    ensures forall x :: x in Sorting.Sort(Before, ranges) <==> x in ranges
  {
    Sorting.SortMembers(Before, ranges);
    Sorting.SortOrders(Before, ranges);
    var out := Sorting.Sort(Before, ranges);
    forall i, j | 0 <= i < j < |out| ensures out[i].offset <= out[j].offset { assert !Before(out[j], out[i]); }
  }

  lemma CoversMembers(a: seq<Range>, b: seq<Range>)
    requires forall x :: x in a <==> x in b
    ensures SameCover(a, b)
  {
    forall x: nat | Covers(a, x) ensures Covers(b, x) {
      var i :| 0 <= i < |a| && Inside(a[i], x);
      assert a[i] in b;
    }
    forall x: nat | Covers(b, x) ensures Covers(a, x) {
      var i :| 0 <= i < |b| && Inside(b[i], x);
      assert b[i] in a;
    }
  }

  // Merge ranges that meet, in one pass over a list sorted by offset.
  method Coalesce(sorted: seq<Range>) returns (out: seq<Range>)
    requires ByOffset(sorted) && forall i | 0 <= i < |sorted| :: sorted[i].length > 0
    ensures Canonical(out) && SameCover(out, sorted)
  {
    hide Canonical, SameCover;
    out := [];
    assert Canonical([]) && SameCover([], sorted[..0]) by { NothingSeen(sorted); }
    for n := 0 to |sorted|
      invariant Canonical(out) && SameCover(out, sorted[..n])
      invariant out != [] ==> forall k | n <= k < |sorted| :: Last(out).offset <= sorted[k].offset
    {
      var r := sorted[n];
      assert sorted[..n + 1] == sorted[..n] + [r];
      MergeKeeps(out, r, sorted[..n]);
      if out == [] {
        out := [r];
      } else {
        var tail := Last(out);
        if r.offset <= tail.End() {
          out := out[..|out| - 1] + [Range(tail.offset, Max(tail.End(), r.End()) - tail.offset)];
        } else {
          out := out + [r];
        }
      }
    }
    assert sorted[..|sorted|] == sorted;
  }

  lemma NothingSeen(sorted: seq<Range>)
    ensures Canonical([]) && SameCover([], sorted[..0])
  {
  }

  // The next range joins the last one if they meet, and stands alone otherwise.
  function Merged(out: seq<Range>, r: Range): seq<Range>
    requires out != [] ==> Last(out).offset <= r.offset
  {
    if out == [] then [r]
    else if r.offset <= Last(out).End()
    then out[..|out| - 1] + [Range(Last(out).offset, Max(Last(out).End(), r.End()) - Last(out).offset)]
    else out + [r]
  }

  lemma MergeKeeps(before: seq<Range>, r: Range, seen: seq<Range>)
    requires Canonical(before) && SameCover(before, seen) && r.length > 0
    requires before != [] ==> Last(before).offset <= r.offset
    ensures Canonical(Merged(before, r)) && SameCover(Merged(before, r), seen + [r])
  {
    hide Covers;
    forall x: nat ensures Covers(Merged(before, r), x) <==> Covers(seen + [r], x) {
      CoversAppend(seen, [r], x);
      CoversOne(r, x);
      MergeCovers(before, r, x);
    }
  }

  lemma MergeCovers(before: seq<Range>, r: Range, x: nat)
    requires before != [] ==> Last(before).offset <= r.offset
    ensures Covers(Merged(before, r), x) <==> Covers(before, x) || Inside(r, x)
  {
    if before == [] {
      CoversOne(r, x);
    } else if r.offset <= Last(before).End() {
      var init, tail := before[..|before| - 1], Last(before);
      var merged := Range(tail.offset, Max(tail.End(), r.End()) - tail.offset);
      assert before == init + [tail];
      CoversAppend(init, [tail], x);
      CoversAppend(init, [merged], x);
      CoversOne(tail, x);
      CoversOne(merged, x);
    } else {
      CoversAppend(before, [r], x);
      CoversOne(r, x);
    }
  }

  method PageAlignAndCoalesce(ranges: seq<Range>, mapping: nat, page: nat) returns (r: Result<seq<Range>, RangeError>)
    requires mapping <= SIZE_MAX
    ensures r.Ok? <==> Geometry(mapping, page) && AllWithin(ranges, mapping)
    ensures r.Ok? ==> Coalesced(r.value, ranges, mapping, page) && AllWithin(r.value, mapping)
  {
    hide Touches, Covers, Hull, IsPowerOfTwo;
    if mapping == 0 || page == 0 || !IsPowerOfTwo(page) { return Err(BadGeometry); }
    var aligned: seq<Range> := [];
    for n := 0 to |ranges|
      invariant |aligned| == n
      invariant forall i | 0 <= i < n :: Within(ranges[i], mapping) && aligned[i] == Hull(ranges[i], mapping, page)
    {
      var range := ranges[n];
      if range.length == 0 { return Err(EmptyRange); }
      if range.length > SIZE_MAX - range.offset { return Err(Overflow); }
      if range.offset >= mapping || range.End() > mapping { return Err(OutsideMapping); }
      aligned := aligned + [Hull(range, mapping, page)];
    }
    SortKeeps(aligned);
    var sorted := Sorting.Sort(Before, aligned);
    forall i | 0 <= i < |sorted| ensures sorted[i].length > 0 && sorted[i].End() <= mapping {
      assert sorted[i] in aligned;
    }
    var out := Coalesce(sorted);
    CoversMembers(sorted, aligned);
    forall b: nat ensures Covers(out, b) <==> b < mapping && Touched(ranges, b, page) {
      HullsTouch(ranges, aligned, mapping, page, b);
    }
    CoveredWithin(out, mapping);
    r := Ok(out);
  }

  lemma HullsTouch(ranges: seq<Range>, aligned: seq<Range>, mapping: nat, page: nat, b: nat)
    requires page > 0 && |aligned| == |ranges| && AllWithin(ranges, mapping)
    requires forall i | 0 <= i < |ranges| :: aligned[i] == Hull(ranges[i], mapping, page)
    ensures Covers(aligned, b) <==> b < mapping && Touched(ranges, b, page)
  {
    hide Hull, Touches;
    if Covers(aligned, b) {
      var i :| 0 <= i < |aligned| && Inside(aligned[i], b);
      HullIsPages(ranges[i], mapping, page, b);
    }
    if b < mapping && Touched(ranges, b, page) {
      var i :| 0 <= i < |ranges| && Touches(ranges[i], b, page);
      HullIsPages(ranges[i], mapping, page, b);
      assert Inside(aligned[i], b);
    }
  }

  lemma CoveredWithin(rs: seq<Range>, mapping: nat)
    requires Canonical(rs) && forall b: nat | Covers(rs, b) :: b < mapping
    ensures AllWithin(rs, mapping)
  {
    forall i | 0 <= i < |rs| ensures Within(rs[i], mapping) {
      assert Inside(rs[i], rs[i].End() - 1);
      assert Covers(rs, rs[i].End() - 1);
    }
  }

  // The result depends only on the set of pages touched ...
  lemma CoalescedUnique(a: seq<Range>, from: seq<Range>, b: seq<Range>, from': seq<Range>, mapping: nat, page: nat)
    requires page > 0 && Coalesced(a, from, mapping, page) && Coalesced(b, from', mapping, page)
    requires forall x: nat | x < mapping :: Touched(from, x, page) <==> Touched(from', x, page)
    ensures a == b
  {
    CanonicalUnique(a, b);
  }

  // ... so coalescing its own result changes nothing.
  lemma CoalescedIdempotent(out: seq<Range>, ranges: seq<Range>, again: seq<Range>, mapping: nat, page: nat)
    requires page > 0 && AllWithin(ranges, mapping)
    requires Coalesced(out, ranges, mapping, page) && Coalesced(again, out, mapping, page)
    ensures again == out
  {
    forall x: nat | x < mapping
      ensures Touched(ranges, x, page) <==> Touched(out, x, page)
    {
      if Touched(ranges, x, page) {
        assert Covers(out, x);
        var i :| 0 <= i < |out| && Inside(out[i], x);
        assert Touches(out[i], x, page);
      }
      if Touched(out, x, page) {
        var i :| 0 <= i < |out| && Touches(out[i], x, page);
        var y :| Inside(out[i], y) && PageOf(y, page) == PageOf(x, page);
        assert Covers(out, y);
        var j :| 0 <= j < |ranges| && Touches(ranges[j], y, page);
        assert Touches(ranges[j], x, page);
      }
    }
    CoalescedUnique(out, ranges, again, out, mapping, page);
  }

  // ---- subtract_ranges ----

  // Exactly the bytes of [from, to) outside the guards.
  ghost predicate LeftOver(out: seq<Range>, from: nat, to: nat, guards: seq<Range>) {
    forall b: nat :: Covers(out, b) <==> from <= b < to && !Covers(guards, b)
  }

  // The pieces lie in [from, to), the last one ending before `to`.
  ghost predicate Pieces(out: seq<Range>, from: nat, to: nat) {
    Canonical(out) && forall i | 0 <= i < |out| :: from <= out[i].offset && out[i].End() < to
  }

  // No guard meets [from, to).
  ghost predicate Clear(guards: seq<Range>, from: nat, to: nat) {
    forall i | 0 <= i < |guards| :: guards[i].End() <= from || guards[i].offset >= to
  }

  ghost predicate NoOverflow(rs: seq<Range>) { forall i | 0 <= i < |rs| :: rs[i].End() <= SIZE_MAX }

  method SubtractOne(item: Range, guards: seq<Range>) returns (r: Result<seq<Range>, RangeError>)
    ensures item.End() <= SIZE_MAX && NoOverflow(guards) ==> r.Ok?
    ensures r.Ok? && Canonical(guards) ==>
      LeftOver(r.value, item.offset, item.End(), guards) && Pieces(r.value, item.offset, item.End() + 1)
  {
    hide Covers, LeftOver, Canonical;
    var out: seq<Range> := [];
    var cursor := item.offset;
    if item.length > SIZE_MAX - item.offset { return Err(Overflow); }
    var end := item.End();
    ghost var exact := Canonical(guards);
    NothingLeft(cursor, guards);
    for g := 0 to |guards|
      invariant item.offset <= cursor
      invariant exact ==> forall i | 0 <= i < g :: guards[i].End() <= cursor
      invariant exact ==> LeftOver(out, item.offset, cursor, guards) && Pieces(out, item.offset, Min(cursor, end))
    {
      var guard := guards[g];
      if guard.length > SIZE_MAX - guard.offset { return Err(Overflow); }
      if guard.End() <= cursor { continue; }
      if exact { ClearBefore(guards, g, cursor, Min(guard.offset, end)); }
      if guard.offset >= end { break; }
      if guard.offset > cursor {
        if exact { Extend(out, item.offset, cursor, guard.offset, guards); }
        out := out + [Range(cursor, guard.offset - cursor)];
      }
      if exact { Cross(out, item.offset, Max(cursor, guard.offset), guards, g); }
      cursor := Max(cursor, guard.End());
      if cursor >= end { break; }
    }
    if cursor < end {
      if exact { Extend(out, item.offset, cursor, end, guards); }
      out := out + [Range(cursor, end - cursor)];
    } else if exact {
      CutBack(out, item.offset, cursor, end, guards);
    }
    r := Ok(out);
  }

  lemma NothingLeft(at: nat, guards: seq<Range>)
    ensures LeftOver([], at, at, guards) && Pieces([], at, at)
  {
  }

  lemma ClearBefore(guards: seq<Range>, g: nat, from: nat, to: nat)
    requires Canonical(guards) && g < |guards| && forall i | 0 <= i < g :: guards[i].End() <= from
    requires to <= guards[g].offset
    ensures Clear(guards, from, to) && guards[g].length > 0
  {
  }

  // A clear stretch is left over whole ...
  lemma Extend(out: seq<Range>, from: nat, cursor: nat, to: nat, guards: seq<Range>)
    requires LeftOver(out, from, cursor, guards) && from <= cursor < to && Clear(guards, cursor, to)
    requires Pieces(out, from, cursor)
    ensures LeftOver(out + [Range(cursor, to - cursor)], from, to, guards)
    ensures Pieces(out + [Range(cursor, to - cursor)], from, to + 1)
  {
    var piece := Range(cursor, to - cursor);
    forall b: nat
      ensures Covers(out + [piece], b) <==> from <= b < to && !Covers(guards, b)
    {
      CoversAppend(out, [piece], b);
      CoversOne(piece, b);
    }
  }

  // ... a guarded stretch leaves nothing ...
  lemma Cross(out: seq<Range>, from: nat, cursor: nat, guards: seq<Range>, g: nat)
    requires g < |guards| && guards[g].offset <= cursor <= guards[g].End()
    requires LeftOver(out, from, cursor, guards)
    ensures LeftOver(out, from, guards[g].End(), guards)
  {
    forall b: nat | cursor <= b < guards[g].End() ensures Covers(guards, b) { assert Inside(guards[g], b); }
  }

  // ... and what lies past the end was guarded anyway.
  lemma CutBack(out: seq<Range>, from: nat, cursor: nat, end: nat, guards: seq<Range>)
    requires LeftOver(out, from, cursor, guards) && end <= cursor && Pieces(out, from, end)
    ensures LeftOver(out, from, end, guards)
  {
  }

  // Against guards in canonical form: exact set difference.
  method SubtractRanges(source: seq<Range>, guards: seq<Range>) returns (r: Result<seq<Range>, RangeError>)
    ensures NoOverflow(source) && NoOverflow(guards) ==> r.Ok?
    ensures r.Ok? && Canonical(guards) ==>
      && (forall b: nat :: Covers(r.value, b) <==> Covers(source, b) && !Covers(guards, b))
      && (Canonical(source) ==> Canonical(r.value))
  {
    hide Covers, LeftOver, Pieces;
    var out: seq<Range> := [];
    ghost var exact := Canonical(guards);
    assert source[..0] == [];
    NoneCovered();
    for n := 0 to |source|
      invariant exact ==> forall b: nat :: Covers(out, b) <==> Covers(source[..n], b) && !Covers(guards, b)
      invariant exact && Canonical(source) ==> SubtractedSoFar(out, source, n)
    {
      var item := source[n];
      var pieces := SubtractOne(item, guards);
      if pieces.Err? { return Err(pieces.error); }
      if exact { SubtractStep(out, source, n, pieces.value, guards); }
      out := out + pieces.value;
    }
    assert source[..|source|] == source;
    r := Ok(out);
  }

  ghost predicate SubtractedSoFar(out: seq<Range>, source: seq<Range>, n: nat)
    requires n <= |source|
  {
    Canonical(out) && forall i | 0 <= i < |out| :: n > 0 && out[i].End() <= source[n - 1].End()
  }

  lemma SubtractStep(out: seq<Range>, source: seq<Range>, n: nat, pieces: seq<Range>, guards: seq<Range>)
    requires n < |source|
    requires forall b: nat :: Covers(out, b) <==> Covers(source[..n], b) && !Covers(guards, b)
    requires LeftOver(pieces, source[n].offset, source[n].End(), guards)
    requires Pieces(pieces, source[n].offset, source[n].End() + 1)
    requires Canonical(source) ==> SubtractedSoFar(out, source, n)
    ensures forall b: nat :: Covers(out + pieces, b) <==> Covers(source[..n + 1], b) && !Covers(guards, b)
    ensures Canonical(source) ==> SubtractedSoFar(out + pieces, source, n + 1)
  {
    var item := source[n];
    assert source[..n + 1] == source[..n] + [item];
    hide Covers;
    forall b: nat
      ensures Covers(out + pieces, b) <==> Covers(source[..n + 1], b) && !Covers(guards, b)
    {
      CoversAppend(out, pieces, b);
      CoversAppend(source[..n], [item], b);
      CoversOne(item, b);
      LeftOverAt(pieces, item, guards, b);
    }
    if Canonical(source) { CanonicalAppend(out, pieces, item.offset); }
  }

  lemma CanonicalAppend(a: seq<Range>, b: seq<Range>, at: nat)
    requires Canonical(a) && Canonical(b)
    requires forall i | 0 <= i < |a| :: a[i].End() < at
    requires forall i | 0 <= i < |b| :: at <= b[i].offset
    ensures Canonical(a + b)
  {
  }

  lemma NoneCovered()
    ensures forall b: nat :: !Covers([], b)
  {
  }

  lemma LeftOverAt(out: seq<Range>, item: Range, guards: seq<Range>, b: nat)
    requires LeftOver(out, item.offset, item.End(), guards)
    ensures Covers(out, b) <==> Inside(item, b) && !Covers(guards, b)
  {
  }

  // ---- token_row_ranges ----

  function Row(tensorOffset: nat, stride: nat, id: nat): Range { Range(tensorOffset + id * stride, stride) }

  // Row after row from the start of the tensor, one stride each.
  lemma RowsTile(tensorOffset: nat, stride: nat, id: nat)
    ensures Row(tensorOffset, stride, 0).offset == tensorOffset && Row(tensorOffset, stride, id).length == stride
    ensures Row(tensorOffset, stride, id).End() == Row(tensorOffset, stride, id + 1).offset
  {
    NextMultiple(id, stride);
  }

  ghost predicate RowsValid(tensorOffset: nat, tensorBytes: nat, stride: nat, rowCount: int, ids: seq<int>) {
    && stride > 0 && rowCount > 0 && ids != []
    && rowCount * stride <= tensorBytes && tensorOffset + tensorBytes <= SIZE_MAX
    && forall i | 0 <= i < |ids| :: 0 <= ids[i] < rowCount
  }

  lemma RowInTensor(tensorOffset: nat, tensorBytes: nat, stride: nat, rowCount: nat, id: nat)
    requires stride > 0 && id < rowCount && rowCount * stride <= tensorBytes
    ensures Row(tensorOffset, stride, id).End() <= tensorOffset + tensorBytes
  {
    MulGap(id, rowCount, stride);
  }

  lemma RowsFit(rowCount: nat, stride: nat, tensorBytes: nat)
    requires stride > 0
    ensures rowCount * stride <= tensorBytes ==> rowCount <= tensorBytes / stride
  {
    if rowCount * stride <= tensorBytes && rowCount > tensorBytes / stride {
      MulGap(tensorBytes / stride, rowCount, stride);
    }
  }

  // The requested rows, one per id.
  function Rows(tensorOffset: nat, stride: nat, ids: seq<int>): (rows: seq<Range>)
    requires forall i | 0 <= i < |ids| :: ids[i] >= 0
    ensures |rows| == |ids| && forall i | 0 <= i < |ids| :: rows[i] == Row(tensorOffset, stride, ids[i])
  {
    seq(|ids|, i requires 0 <= i < |ids| => Row(tensorOffset, stride, ids[i]))
  }

  lemma TouchedMembers(a: seq<Range>, b: seq<Range>, x: nat, page: nat)
    requires page > 0 && forall r :: r in a <==> r in b
    ensures Touched(a, x, page) <==> Touched(b, x, page)
  {
    hide Touches;
    if Touched(a, x, page) { var i :| 0 <= i < |a| && Touches(a[i], x, page); assert a[i] in b; }
    if Touched(b, x, page) { var i :| 0 <= i < |b| && Touches(b[i], x, page); assert b[i] in a; }
  }

  lemma WithinMembers(a: seq<Range>, b: seq<Range>, mapping: nat)
    requires forall r :: r in a <==> r in b
    ensures AllWithin(a, mapping) <==> AllWithin(b, mapping)
  {
    if AllWithin(a, mapping) { forall i | 0 <= i < |b| ensures Within(b[i], mapping) { assert b[i] in a; } }
    if AllWithin(b, mapping) { forall i | 0 <= i < |a| ensures Within(a[i], mapping) { assert a[i] in b; } }
  }

  method RowAt(tensorOffset: nat, tensorBytes: nat, stride: nat, rowCount: nat, id: nat)
    returns (r: Result<Range, RangeError>)
    requires stride > 0 && id < rowCount && rowCount * stride <= tensorBytes
    ensures r.Ok? <==> tensorOffset + tensorBytes <= SIZE_MAX
    ensures r.Ok? ==> r.value == Row(tensorOffset, stride, id)
  {
    RowInTensor(tensorOffset, tensorBytes, stride, rowCount, id);
    if id * stride > SIZE_MAX - tensorOffset { return Err(Overflow); }
    var start := tensorOffset + id * stride;
    if tensorBytes > SIZE_MAX - tensorOffset { return Err(Overflow); }
    if stride > SIZE_MAX - start { return Err(Overflow); }
    r := Ok(Range(start, stride));
  }

  // Exactly the pages of the requested rows, clipped to the mapping, each row taken
  // once however often its id is repeated.
  method TokenRowRanges(tensorOffset: nat, tensorBytes: nat, stride: nat, rowCount: int, ids: seq<int>, mapping: nat,
                        page: nat)
    returns (r: Result<seq<Range>, RangeError>)
    requires mapping <= SIZE_MAX
    ensures r.Ok? <==>
      && RowsValid(tensorOffset, tensorBytes, stride, rowCount, ids) && Geometry(mapping, page)
      && AllWithin(Rows(tensorOffset, stride, ids), mapping)
    ensures r.Ok? ==> Coalesced(r.value, Rows(tensorOffset, stride, ids), mapping, page) && AllWithin(r.value, mapping)
  {
    hide Covers, Touches, Touched, IsPowerOfTwo, Row, AllWithin, Canonical;
    if stride == 0 || rowCount <= 0 || ids == [] { return Err(BadRequest); }
    RowsFit(rowCount, stride, tensorBytes);
    if rowCount > tensorBytes / stride || rowCount * stride > tensorBytes { return Err(BadRequest); }
    var unique: set<int> := {};
    var raw: seq<Range> := [];
    for n := 0 to |ids|
      invariant forall i | 0 <= i < n :: 0 <= ids[i] < rowCount
      invariant forall id :: id in unique <==> id in ids[..n]
      invariant forall x :: x in raw <==> x in Rows(tensorOffset, stride, ids[..n])
      invariant n > 0 ==> tensorOffset + tensorBytes <= SIZE_MAX
    {
      var id := ids[n];
      if id < 0 || id >= rowCount { return Err(BadRequest); }
      assert ids[..n + 1] == ids[..n] + [id];
      RowsAppend(tensorOffset, stride, ids[..n], id);
      if id in unique {
        RowsMember(tensorOffset, stride, ids[..n], id);
        continue;
      }
      unique := unique + {id};
      var row := RowAt(tensorOffset, tensorBytes, stride, rowCount, id);
      if row.Err? { return Err(row.error); }
      raw := raw + [row.value];
    }
    assert ids[..|ids|] == ids;
    var rows := Rows(tensorOffset, stride, ids);
    WithinMembers(raw, rows, mapping);
    r := PageAlignAndCoalesce(raw, mapping, page);
    if r.Ok? {
      forall b: nat ensures Touched(raw, b, page) <==> Touched(rows, b, page) { TouchedMembers(raw, rows, b, page); }
    }
  }

  lemma RowsAppend(tensorOffset: nat, stride: nat, ids: seq<int>, id: int)
    requires id >= 0 && forall i | 0 <= i < |ids| :: ids[i] >= 0
    ensures Rows(tensorOffset, stride, ids + [id]) == Rows(tensorOffset, stride, ids) + [Row(tensorOffset, stride, id)]
  {
  }

  lemma RowsMember(tensorOffset: nat, stride: nat, ids: seq<int>, id: int)
    requires id in ids && forall i | 0 <= i < |ids| :: ids[i] >= 0
    ensures Row(tensorOffset, stride, id) in Rows(tensorOffset, stride, ids)
  {
    var i :| 0 <= i < |ids| && ids[i] == id;
    assert Rows(tensorOffset, stride, ids)[i] == Row(tensorOffset, stride, id);
  }

  // ---- Sizes ----

  function ByteCount(rs: seq<Range>): nat {
    if rs == [] then 0 else ByteCount(rs[..|rs| - 1]) + Last(rs).length
  }

  ghost function Bytes(rs: seq<Range>, mapping: nat): set<nat> {
    set b: nat | b < mapping && Covers(rs, b)
  }

  ghost function Interval(from: nat, length: nat): (s: set<nat>)
    ensures forall b: nat :: b in s <==> from <= b < from + length
    ensures |s| == length
  {
    if length == 0 then {} else Interval(from, length - 1) + {from + length - 1}
  }

  lemma SplitLast(rs: seq<Range>, mapping: nat)
    requires rs != [] && Canonical(rs) && AllWithin(rs, mapping)
    ensures var (init, r) := (rs[..|rs| - 1], Last(rs));
      && Bytes(rs, mapping) == Bytes(init, mapping) + Interval(r.offset, r.length)
      && Bytes(init, mapping) !! Interval(r.offset, r.length)
  {
    var init, r := rs[..|rs| - 1], Last(rs);
    assert rs == init + [r] && Within(rs[|rs| - 1], mapping);
    hide Covers, AllWithin;
    forall b: nat
      ensures Covers(rs, b) <==> Covers(init, b) || Inside(r, b)
      ensures Covers(init, b) ==> b < r.offset
    {
      CoversAppend(init, [r], b);
      CoversOne(r, b);
      CoversBelow(init, b, r.offset);
    }
  }

  lemma CoversBelow(rs: seq<Range>, b: nat, bound: nat)
    requires forall i | 0 <= i < |rs| :: rs[i].End() <= bound
    ensures Covers(rs, b) ==> b < bound
  {
  }

  // The byte count of a canonical list is the number of bytes it covers.
  lemma {:induction false} CountIsSize(rs: seq<Range>, mapping: nat)
    requires Canonical(rs) && AllWithin(rs, mapping)
    ensures |Bytes(rs, mapping)| == ByteCount(rs)
  {
    if rs == [] {
      assert Bytes(rs, mapping) == {};
    } else {
      CountIsSize(rs[..|rs| - 1], mapping);
      SplitLast(rs, mapping);
    }
  }

  // ---- Whole pages ----

  ghost predicate PageClosed(rs: seq<Range>, mapping: nat, page: nat)
    requires page > 0
  {
    forall b: nat, x: nat | b < mapping && x < mapping && PageOf(b, page) == PageOf(x, page) ::
      Covers(rs, b) ==> Covers(rs, x)
  }

  lemma CoalescedClosed(out: seq<Range>, ranges: seq<Range>, mapping: nat, page: nat)
    requires page > 0 && Coalesced(out, ranges, mapping, page)
    ensures PageClosed(out, mapping, page)
  {
    hide Covers, PageOf;
    forall b: nat, x: nat | b < mapping && x < mapping && PageOf(b, page) == PageOf(x, page) && Covers(out, b)
      ensures Covers(out, x)
    {
      var i :| 0 <= i < |ranges| && Touches(ranges[i], b, page);
      assert Touches(ranges[i], x, page);
    }
  }

  // A list of whole pages touches no byte of the mapping it does not cover.
  lemma ClosedTouches(rs: seq<Range>, mapping: nat, page: nat, b: nat)
    requires page > 0 && PageClosed(rs, mapping, page) && AllWithin(rs, mapping) && b < mapping
    ensures Touched(rs, b, page) <==> Covers(rs, b)
  {
    hide PageOf;
    if Touched(rs, b, page) {
      var i :| 0 <= i < |rs| && Touches(rs[i], b, page);
      var x: nat :| Inside(rs[i], x) && PageOf(x, page) == PageOf(b, page);
      assert Covers(rs, x) && x < mapping;
    }
    if Covers(rs, b) {
      var i :| 0 <= i < |rs| && Inside(rs[i], b);
      assert Touches(rs[i], b, page);
    }
  }

  lemma DifferenceClosed(out: seq<Range>, a: seq<Range>, guards: seq<Range>, mapping: nat, page: nat)
    requires page > 0 && PageClosed(a, mapping, page) && PageClosed(guards, mapping, page)
    requires forall b: nat :: Covers(out, b) <==> Covers(a, b) && !Covers(guards, b)
    ensures PageClosed(out, mapping, page)
  {
    hide Covers, PageOf;
  }
}
