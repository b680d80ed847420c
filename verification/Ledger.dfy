// The bookkeeping of active leases, regions and pending ranges, as values, and
// what acquiring and releasing do to the pages that must stay advised.
module Ledger {
  import opened Ranges

  datatype ActiveLease = ActiveLease(key: string, ranges: seq<Range>)
  datatype Region = Region(count: nat, pending: seq<Range>)

  datatype Books = Books(active: map<nat, ActiveLease>, regions: map<string, Region>, common: seq<Range>)

  ghost function Holders(active: map<nat, ActiveLease>, key: string): set<nat> {
    set id | id in active && active[id].key == key
  }

  // ---- Pages ----

  ghost predicate LeaseTouches(active: map<nat, ActiveLease>, b: nat, page: nat)
    requires page > 0
  {
    exists id :: id in active && Touched(active[id].ranges, b, page)
  }

  // On a page of the common ranges or of an active lease.
  ghost predicate Protected(k: Books, b: nat, page: nat)
    requires page > 0
  {
    Touched(k.common, b, page) || LeaseTouches(k.active, b, page)
  }

  // On a page some key with a live lease still has to give back.
  ghost predicate Owed(k: Books, b: nat, page: nat)
    requires page > 0
  {
    exists key :: key in k.regions && k.regions[key].count > 0 && Touched(k.regions[key].pending, b, page)
  }

  // ---- The invariant of the books ----

  ghost predicate AllRangesWithin(k: Books, mapping: nat) {
    && AllWithin(k.common, mapping)
    && (forall id | id in k.active :: AllWithin(k.active[id].ranges, mapping))
    && (forall key | key in k.regions :: AllWithin(k.regions[key].pending, mapping))
  }

  // A region counts its leases, and gives nothing back before the last one is gone.
  ghost predicate CountsRight(k: Books) {
    && (forall id | id in k.active :: k.active[id].key in k.regions)
    && (forall key | key in k.regions :: k.regions[key].count == |Holders(k.active, key)|)
    && (forall key | key in k.regions && k.regions[key].count == 0 :: k.regions[key].pending == [])
  }

  ghost predicate PendingHolds(k: Books)
    requires CountsRight(k)
  {
    forall id, r | id in k.active && r in k.active[id].ranges :: r in k.regions[k.active[id].key].pending
  }

  ghost predicate BooksOk(k: Books, mapping: nat) {
    AllRangesWithin(k, mapping) && CountsRight(k) && PendingHolds(k)
  }

  // ---- Steps ----

  function RegionOf(k: Books, key: string): Region {
    if key in k.regions then k.regions[key] else Region(0, [])
  }

  function Acquired(k: Books, id: nat, key: string, ranges: seq<Range>): Books {
    var region := RegionOf(k, key);
    k.(active := k.active[id := ActiveLease(key, ranges)],
       regions := k.regions[key := Region(region.count + 1, region.pending + ranges)])
  }

  // A lease goes; with the last lease of its key, so do the region's pending ranges.
  function Released(k: Books, id: nat): Books
    requires id in k.active
  {
    var key := k.active[id].key;
    var region := RegionOf(k, key);
    var last := region.count <= 1;
    k.(active := k.active - {id},
       regions := k.regions[key := Region(if last then 0 else region.count - 1, if last then [] else region.pending)])
  }

  lemma HolderCounts(k: Books, id: nat)
    requires CountsRight(k) && id in k.active
    ensures k.regions[k.active[id].key].count > 0
  {
    assert id in Holders(k.active, k.active[id].key);
  }

  lemma HoldersAfter(active: map<nat, ActiveLease>, id: nat, lease: ActiveLease, key: string)
    requires id !in active
    ensures Holders(active[id := lease], key) == Holders(active, key) + if key == lease.key then {id} else {}
  {
  }

  lemma AcquiredCounts(k: Books, id: nat, key: string, ranges: seq<Range>)
    requires CountsRight(k) && id !in k.active
    ensures CountsRight(Acquired(k, id, key, ranges))
  {
    hide Holders;
    var after := Acquired(k, id, key, ranges);
    if key !in k.regions { NoHolders(k, key); }
    forall other | other in after.regions
      ensures after.regions[other].count == |Holders(after.active, other)|
    {
      HoldersAfter(k.active, id, ActiveLease(key, ranges), other);
      NotHolder(k.active, id, other);
    }
  }

  lemma NoHolders(k: Books, key: string)
    requires CountsRight(k) && key !in k.regions
    ensures Holders(k.active, key) == {}
  {
  }

  lemma NotHolder(active: map<nat, ActiveLease>, id: nat, key: string)
    requires id !in active
    ensures id !in Holders(active, key)
  {
  }

  lemma AcquiredOk(k: Books, mapping: nat, id: nat, key: string, ranges: seq<Range>)
    requires BooksOk(k, mapping) && id !in k.active && AllWithin(ranges, mapping)
    ensures BooksOk(Acquired(k, id, key, ranges), mapping)
  {
    AcquiredCounts(k, id, key, ranges);
    hide CountsRight;
    assert AllWithin(RegionOf(k, key).pending + ranges, mapping);
    assert PendingHolds(Acquired(k, id, key, ranges)) by { AcquiredPending(k, id, key, ranges); }
  }

  lemma AcquiredPending(k: Books, id: nat, key: string, ranges: seq<Range>)
    requires CountsRight(k) && PendingHolds(k) && id !in k.active && CountsRight(Acquired(k, id, key, ranges))
    ensures PendingHolds(Acquired(k, id, key, ranges))
  {
  }

  lemma ReleasedCounts(k: Books, id: nat)
    requires CountsRight(k) && id in k.active && k.regions[k.active[id].key].count > 0
    ensures CountsRight(Released(k, id))
  {
    var after, key := Released(k, id), k.active[id].key;
    assert id in Holders(k.active, key);
    assert Holders(after.active, key) == Holders(k.active, key) - {id};
    forall other | other != key ensures Holders(after.active, other) == Holders(k.active, other) {}
  }

  lemma ReleasedOk(k: Books, mapping: nat, id: nat)
    requires BooksOk(k, mapping) && id in k.active
    requires k.regions[k.active[id].key].count > 0
    ensures BooksOk(Released(k, id), mapping)
  {
    ReleasedCounts(k, id);
    var after, key := Released(k, id), k.active[id].key;
    forall other, r | other in after.active && r in after.active[other].ranges
      ensures r in after.regions[after.active[other].key].pending
    {
      if after.active[other].key == key { assert other in Holders(after.active, key); }
    }
  }

  // ---- What the steps do to protected and owed pages ----

  lemma TouchedAppend(a: seq<Range>, b: seq<Range>, x: nat, page: nat)
    requires page > 0
    ensures Touched(a + b, x, page) <==> Touched(a, x, page) || Touched(b, x, page)
  {
    hide Touches;
    if Touched(a, x, page) { var i :| 0 <= i < |a| && Touches(a[i], x, page); assert Touches((a + b)[i], x, page); }
    if Touched(b, x, page) {
      var i :| 0 <= i < |b| && Touches(b[i], x, page);
      assert Touches((a + b)[|a| + i], x, page);
    }
  }

  lemma TouchedWithin(a: seq<Range>, b: seq<Range>, x: nat, page: nat)
    requires page > 0 && forall r | r in a :: r in b
    ensures Touched(a, x, page) ==> Touched(b, x, page)
  {
    hide Touches;
    if Touched(a, x, page) { var i :| 0 <= i < |a| && Touches(a[i], x, page); assert a[i] in b; }
  }

  lemma AcquiredProtects(k: Books, id: nat, key: string, ranges: seq<Range>, b: nat, page: nat)
    requires page > 0 && id !in k.active
    ensures Protected(Acquired(k, id, key, ranges), b, page) <==> Protected(k, b, page) || Touched(ranges, b, page)
  {
    hide Touched;
    var after := Acquired(k, id, key, ranges);
    if LeaseTouches(k.active, b, page) {
      var other :| other in k.active && Touched(k.active[other].ranges, b, page);
      assert other in after.active && after.active[other] == k.active[other];
    }
    if Touched(ranges, b, page) { assert id in after.active && Touched(after.active[id].ranges, b, page); }
  }

  lemma AcquiredOwes(k: Books, mapping: nat, id: nat, key: string, ranges: seq<Range>, b: nat, page: nat)
    requires page > 0 && BooksOk(k, mapping) && id !in k.active
    ensures Owed(k, b, page) || Touched(ranges, b, page) ==> Owed(Acquired(k, id, key, ranges), b, page)
  {
    var after, region := Acquired(k, id, key, ranges), RegionOf(k, key);
    TouchedAppend(region.pending, ranges, b, page);
    hide Touched;
    if Owed(k, b, page) {
      var other :| other in k.regions && k.regions[other].count > 0 && Touched(k.regions[other].pending, b, page);
      assert other in after.regions && after.regions[other].count > 0 && Touched(after.regions[other].pending, b, page);
    }
    if Touched(ranges, b, page) {
      assert key in after.regions && after.regions[key].count > 0 && Touched(after.regions[key].pending, b, page);
    }
  }

  lemma ReleasedProtects(k: Books, id: nat, b: nat, page: nat)
    requires page > 0 && id in k.active && k.active[id].key in k.regions && k.regions[k.active[id].key].count > 0
    ensures Protected(Released(k, id), b, page) ==> Protected(k, b, page)
  {
    hide Touched;
  }

  // Pages a release stops owing are those of the pending list it gives back.
  lemma ReleasedOwes(k: Books, id: nat, b: nat, page: nat)
    requires page > 0 && id in k.active && k.active[id].key in k.regions && k.regions[k.active[id].key].count > 0
    requires Owed(k, b, page)
    ensures Owed(Released(k, id), b, page)
         || (k.regions[k.active[id].key].count == 1 && Touched(k.regions[k.active[id].key].pending, b, page))
  {
    hide Touched;
    var after, key := Released(k, id), k.active[id].key;
    var other :| other in k.regions && k.regions[other].count > 0 && Touched(k.regions[other].pending, b, page);
    if other != key || k.regions[key].count > 1 {
      assert other in after.regions && after.regions[other].count > 0 && Touched(after.regions[other].pending, b, page);
    }
  }

  // A page of an active lease is owed by its key.
  lemma LeaseOwed(k: Books, mapping: nat, b: nat, page: nat)
    requires page > 0 && BooksOk(k, mapping) && LeaseTouches(k.active, b, page)
    ensures Owed(k, b, page)
  {
    var id :| id in k.active && Touched(k.active[id].ranges, b, page);
    var key := k.active[id].key;
    TouchedWithin(k.active[id].ranges, k.regions[key].pending, b, page);
    HolderCounts(k, id);
  }
}
