// The residency coordinator: leases over mapped pages, serialised by a mutex, so
// each method is one atomic step. Advice calls may fail at any point.
module Residency {
  import opened Prelude
  import opened Ranges
  import opened Ledger

  datatype Failure =
    | CommonAlreadyRetained | EmptyLease | Poisoned | WillNeedFailed
    | DontNeedFailed | ReleasedBeforeCompletion

  datatype Diagnostics = Diagnostics(
    willNeedCalls: nat, willNeedFailures: nat, dontNeedCalls: nat, dontNeedFailures: nat,
    acquired: nat, released: nat, active: nat, leaseHighWater: nat,
    completions: nat, prematureReleases: nat, poisoned: bool, advisedHighWater: nat)

  // What the system says to the n-th advice call of an operation.
  type Answers = nat -> bool

  // The bytes on protected pages.
  ghost function UnionBytes(k: Books, mapping: nat, page: nat): set<nat>
    requires page > 0
  {
    set b: nat | b < mapping && Protected(k, b, page)
  }

  ghost function TouchedBytes(rs: seq<Range>, mapping: nat, page: nat): set<nat>
    requires page > 0
  {
    set b: nat | b < mapping && Touched(rs, b, page)
  }

  // The bytes a release may give back: on pending pages, and on no protected page.
  ghost function Returnable(k: Books, pending: seq<Range>, mapping: nat, page: nat): set<nat>
    requires page > 0
  {
    set b: nat | b < mapping && Touched(pending, b, page) && !Protected(k, b, page)
  }

  // Pages of common and of every active lease are advised.
  ghost predicate Safe(k: Books, advised: set<nat>, mapping: nat, page: nat)
    requires page > 0
  {
    UnionBytes(k, mapping, page) <= advised
  }

  // On a page of common, or pending under a key with a live lease.
  ghost predicate Explained(k: Books, b: nat, page: nat)
    requires page > 0
  {
    Touched(k.common, b, page) || Owed(k, b, page)
  }

  // Every advised page is explained.
  ghost predicate Accounted(k: Books, advised: set<nat>, mapping: nat, page: nat)
    requires page > 0
  {
    forall b | b in advised :: 0 <= b < mapping && Explained(k, b, page)
  }

  ghost predicate CountersOk(d: Diagnostics, live: nat) {
    && d.acquired == d.released + d.active
    && d.completions == d.released
    && d.active == live && d.active <= d.leaseHighWater
    && (d.poisoned <==> d.dontNeedFailures > 0 || d.prematureReleases > 0)
  }

  ghost predicate OnlyHighWater(was: Diagnostics, now: Diagnostics) {
    now == was.(advisedHighWater := now.advisedHighWater)
  }

  // No advice call was ever refused.
  ghost predicate NoRefusal(d: Diagnostics) { d.willNeedFailures == 0 && d.dontNeedFailures == 0 }

  // Leases are numbered from 1; `takers` says who took each, `returned` which came back,
  // in turn. A lease is active until it comes back, and it comes back at most once.
  ghost predicate LeasesOk(active: map<nat, ActiveLease>, takers: seq<nat>, returned: seq<nat>) {
    && (forall id | id in active :: 1 <= id <= |takers|)
    && (forall id | id in returned :: 1 <= id <= |takers|)
    && (forall id | 1 <= id <= |takers| :: id in active <==> id !in returned)
    && forall i, j | 0 <= i < j < |returned| :: returned[i] != returned[j]
  }

  // ---- A run of advice calls ----

  // How many of `n` calls are granted before one is refused.
  ghost function Granted(answers: Answers, n: nat): (k: nat)
    ensures k <= n && (forall i: nat | i < k :: answers(i)) && (k < n ==> !answers(k))
  {
    if n == 0 then 0
    else
      var k := Granted(answers, n - 1);
      if k < n - 1 || !answers(k) then k else n
  }

  // How many are made: a refused one is the last.
  ghost function Made(answers: Answers, n: nat): nat { Min(Granted(answers, n) + 1, n) }

  ghost function Refused(answers: Answers, n: nat): nat { if Granted(answers, n) < n then 1 else 0 }

  ghost function WillNeeds(d: Diagnostics, answers: Answers, n: nat): Diagnostics {
    d.(willNeedCalls := d.willNeedCalls + Made(answers, n),
       willNeedFailures := d.willNeedFailures + Refused(answers, n))
  }

  // A refused DONTNEED poisons the coordinator.
  ghost function DontNeeds(d: Diagnostics, answers: Answers, n: nat): Diagnostics {
    d.(dontNeedCalls := d.dontNeedCalls + Made(answers, n),
       dontNeedFailures := d.dontNeedFailures + Refused(answers, n), poisoned := d.poisoned || Refused(answers, n) > 0)
  }

  // ---- Operations, as steps between moments ----

  datatype Moment = Moment(books: Books, advised: set<nat>, takers: seq<nat>, returned: seq<nat>, diag: Diagnostics)

  // Common is taken once, and only if every range was advised.
  ghost predicate Retained(was: Moment, now: Moment, ranges: seq<Range>, answers: Answers, mapping: nat, page: nat)
    requires page > 0
  {
    if was.books.common != [] then now == was
    else
      var k := Granted(answers, |ranges|);
      && now.books == (if k == |ranges| then was.books.(common := ranges) else was.books)
      && now.advised == was.advised + TouchedBytes(ranges[..k], mapping, page)
      && now.takers == was.takers && now.returned == was.returned
      && OnlyHighWater(WillNeeds(was.diag, answers, |ranges|), now.diag)
  }

  ghost function Entered(d: Diagnostics): Diagnostics {
    d.(acquired := d.acquired + 1, active := d.active + 1, leaseHighWater := Max(d.leaseHighWater, d.active + 1))
  }

  // A lease is on the books only if every range was advised; what was advised before a
  // refusal stays advised.
  ghost predicate Taken(was: Moment, now: Moment, who: nat, key: string, ranges: seq<Range>, answers: Answers,
                        mapping: nat, page: nat)
    requires page > 0
  {
    if ranges == [] || was.diag.poisoned then now == was
    else
      var k := Granted(answers, |ranges|);
      var done := WillNeeds(was.diag, answers, |ranges|);
      && now.advised == was.advised + TouchedBytes(ranges[..k], mapping, page)
      && now.returned == was.returned
      && if k < |ranges| then now.books == was.books && now.takers == was.takers && now.diag == done
         else
           && now.books == Acquired(was.books, |was.takers| + 1, key, ranges)
           && now.takers == was.takers + [who] && OnlyHighWater(Entered(done), now.diag)
  }

  ghost function Left(d: Diagnostics): Diagnostics
    requires d.active > 0
  {
    d.(completions := d.completions + 1, active := d.active - 1, released := d.released + 1)
  }

  // The runs of bytes a release gives back. There is one such list.
  ghost predicate GivesBack(k: Books, pending: seq<Range>, out: seq<Range>, mapping: nat, page: nat)
    requires page > 0
  {
    && Canonical(out) && AllWithin(out, mapping)
    && Bytes(out, mapping) == TouchedBytes(out, mapping, page) == Returnable(k, pending, mapping, page)
  }

  lemma GivesBackUnique(k: Books, pending: seq<Range>, a: seq<Range>, b: seq<Range>, mapping: nat, page: nat)
    requires page > 0 && GivesBack(k, pending, a, mapping, page) && GivesBack(k, pending, b, mapping, page)
    ensures a == b
  {
    hide Touched, TouchedBytes, Returnable, Canonical;
    forall x: nat ensures Covers(a, x) <==> Covers(b, x) {
      assert x in Bytes(a, mapping) <==> x in Bytes(b, mapping);
    }
    CanonicalUnique(a, b);
  }

  // A lease comes off after its computation; with the last of its key, pages go back.
  // Before its computation it stays, and the coordinator is poisoned.
  ghost predicate Given(was: Moment, now: Moment, id: nat, complete: bool, answers: Answers, mapping: nat, page: nat)
    requires page > 0
  {
    if id !in was.books.active then now == was
    else if !complete then
      now == was.(diag := was.diag.(prematureReleases := was.diag.prematureReleases + 1, poisoned := true))
    else
      && now.books == Released(was.books, id) && now.takers == was.takers && now.returned == was.returned + [id]
      && was.diag.active > 0
      && var region := RegionOf(was.books, was.books.active[id].key);
        if region.count > 1 then now.advised == was.advised && now.diag == Left(was.diag)
        else exists out :: Returns(was, now, region.pending, out, answers, mapping, page)
  }

  ghost predicate Returns(was: Moment, now: Moment, pending: seq<Range>, out: seq<Range>, answers: Answers,
                          mapping: nat, page: nat)
    requires page > 0 && was.diag.active > 0
  {
    && GivesBack(now.books, pending, out, mapping, page)
    && now.advised == was.advised - TouchedBytes(out[..Made(answers, |out|)], mapping, page)
    && now.diag == DontNeeds(Left(was.diag), answers, |out|)
  }

  class Coordinator {
    const mapping: nat
    const page: nat
    var nextId: nat
    var active: map<nat, ActiveLease>
    var regions: map<string, Region>
    var common: seq<Range>
    var commonBytes: nat
    var diag: Diagnostics
    ghost var advised: set<nat>    // bytes advised and not given back since
    ghost var takers: seq<nat>     // who took each lease
    ghost var returned: seq<nat>   // leases that came back
    ghost var peak: nat            // largest union of common and active pages at any moment

    ghost function CurrentBooks(): Books
      reads `active, `regions, `common
    {
      Books(active, regions, common)
    }

    ghost function Now(): Moment
      reads this
    {
      Moment(CurrentBooks(), advised, takers, returned, diag)
    }

    ghost predicate CommonCoalesced()
      reads `common
    {
      page > 0 && Canonical(common) && PageClosed(common, mapping, page)
    }

    // The books, whatever is advised.
    ghost predicate Kept()
      reads `nextId, `active, `regions, `common, `commonBytes, `diag, `takers, `returned, `peak
    {
      && Geometry(mapping, page) && mapping <= SIZE_MAX
      && BooksOk(CurrentBooks(), mapping)
      && nextId == |takers| + 1 && LeasesOk(active, takers, returned)
      && CountersOk(diag, |active|) && diag.acquired == |takers| && diag.released == |returned|
      && |UnionBytes(CurrentBooks(), mapping, page)| <= peak
      && commonBytes == ByteCount(common)
      && (CommonCoalesced() ==> diag.advisedHighWater == peak)
    }

    ghost predicate Valid()
      reads this
    {
      && Kept()
      && Safe(CurrentBooks(), advised, mapping, page)
      && (NoRefusal(diag) ==> Accounted(CurrentBooks(), advised, mapping, page))
    }

    constructor (mapping: nat, page: nat)
      requires Geometry(mapping, page) && mapping <= SIZE_MAX
      ensures Valid() && this.mapping == mapping && this.page == page
      ensures Now() == Start() && peak == 0
    {
      this.mapping, this.page := mapping, page;
      nextId, active, regions, common, commonBytes := 1, map[], map[], [], 0;
      diag := Diagnostics(0, 0, 0, 0, 0, 0, 0, 0, 0, 0, false, 0);
      advised, takers, returned, peak := {}, [], [], 0;
      new;
      NothingProtected(mapping, page);
    }

    // Advise each range in turn; stop at the first call that fails.
    method WillNeedAll(ranges: seq<Range>, answers: Answers) returns (ok: bool)
      requires page > 0
      modifies `diag, `advised
      ensures ok <==> forall n | 0 <= n < |ranges| :: answers(n)
      ensures ok <==> Granted(answers, |ranges|) == |ranges|
      ensures advised == old(advised) + TouchedBytes(ranges[..Granted(answers, |ranges|)], mapping, page)
      ensures diag == WillNeeds(old(diag), answers, |ranges|)
    {
      hide Touches;
      assert ranges[..0] == [];
      for n := 0 to |ranges|
        invariant advised == old(advised) + TouchedBytes(ranges[..n], mapping, page)
        invariant forall i | 0 <= i < n :: answers(i)
        invariant diag == old(diag).(willNeedCalls := old(diag).willNeedCalls + n)
      {
        diag := diag.(willNeedCalls := diag.willNeedCalls + 1);
        assert ranges[..n + 1] == ranges[..n] + [ranges[n]];
        if !answers(n) {
          diag := diag.(willNeedFailures := diag.willNeedFailures + 1);
          return false;
        }
        AppendBytes(ranges[..n], ranges[n], mapping, page);
        advised := advised + TouchedBytes([ranges[n]], mapping, page);
      }
      assert ranges[..|ranges|] == ranges;
      ok := true;
    }

    // Give each range back in turn. Whatever a call reports, its pages may be gone.
    method DontNeedAll(ranges: seq<Range>, answers: Answers) returns (ok: bool)
      requires page > 0
      modifies `diag, `advised
      ensures ok <==> forall n | 0 <= n < |ranges| :: answers(n)
      ensures ok <==> Refused(answers, |ranges|) == 0
      ensures advised == old(advised) - TouchedBytes(ranges[..Made(answers, |ranges|)], mapping, page)
      ensures diag == DontNeeds(old(diag), answers, |ranges|).(poisoned := old(diag).poisoned)
    {
      hide Touches;
      assert ranges[..0] == [];
      for n := 0 to |ranges|
        invariant advised == old(advised) - TouchedBytes(ranges[..n], mapping, page)
        invariant forall i | 0 <= i < n :: answers(i)
        invariant diag == old(diag).(dontNeedCalls := old(diag).dontNeedCalls + n)
      {
        diag := diag.(dontNeedCalls := diag.dontNeedCalls + 1);
        assert ranges[..n + 1] == ranges[..n] + [ranges[n]];
        AppendBytes(ranges[..n], ranges[n], mapping, page);
        advised := advised - TouchedBytes([ranges[n]], mapping, page);
        if !answers(n) {
          diag := diag.(dontNeedFailures := diag.dontNeedFailures + 1);
          return false;
        }
      }
      assert ranges[..|ranges|] == ranges;
      ok := true;
    }

    // All ranges of active leases, in one list.
    method CollectActive() returns (ranges: seq<Range>)
      requires page > 0 && BooksOk(CurrentBooks(), mapping)
      ensures AllWithin(ranges, mapping)
      ensures forall b: nat :: Touched(ranges, b, page) <==> LeaseTouches(active, b, page)
    {
      hide Touched, BooksOk;
      WithinBooks(CurrentBooks(), mapping);
      ranges := CollectRanges(active, mapping, page);
    }

    // The active leases' pages coalesced, less common, counted.
    method CurrentAdvisedBytes() returns (bytes: nat)
      requires Geometry(mapping, page) && mapping <= SIZE_MAX && BooksOk(CurrentBooks(), mapping)
      ensures CommonCoalesced() ==> bytes + ByteCount(common) == |UnionBytes(CurrentBooks(), mapping, page)|
    {
      hide BooksOk, UnionBytes, Covers, Touched, PageClosed;
      WithinBooks(CurrentBooks(), mapping);
      var ranges := CollectActive();
      var rest := [];
      if ranges != [] {
        var coalesced := PageAlignAndCoalesce(ranges, mapping, page);
        var left := SubtractRanges(coalesced.value, common);
        rest := left.value;
        if CommonCoalesced() {
          UnionSize(CurrentBooks(), ranges, coalesced.value, rest, mapping, page);
        }
      } else if CommonCoalesced() {
        NothingCoalesced(mapping, page);
        NoneCovered();
        UnionSize(CurrentBooks(), ranges, [], [], mapping, page);
      }
      bytes := ByteCount(rest);
    }

    method NotePeak()
      requires Geometry(mapping, page) && mapping <= SIZE_MAX && BooksOk(CurrentBooks(), mapping)
      requires commonBytes == ByteCount(common)
      modifies `diag, `peak
      ensures peak == Max(old(peak), |UnionBytes(CurrentBooks(), mapping, page)|)
      ensures OnlyHighWater(old(diag), diag)
      ensures CommonCoalesced() && old(diag).advisedHighWater == old(peak) ==> diag.advisedHighWater == peak
    {
      hide BooksOk, UnionBytes, CommonCoalesced;
      var bytes := CurrentAdvisedBytes();
      diag := diag.(advisedHighWater := Max(diag.advisedHighWater, bytes + commonBytes));
      peak := Max(peak, |UnionBytes(CurrentBooks(), mapping, page)|);
    }

    // Common ranges are advised once and kept for good.
    method RetainCommon(ranges: seq<Range>, answers: Answers) returns (failure: Option<Failure>)
      requires Valid() && AllWithin(ranges, mapping)
      modifies this
      ensures Valid() && Retained(old(Now()), Now(), ranges, answers, mapping, page)
      ensures failure == None <==> old(common) == [] && forall n | 0 <= n < |ranges| :: answers(n)
      ensures failure.Some? ==> failure.value == if old(common) != [] then CommonAlreadyRetained else WillNeedFailed
      ensures peak == Max(old(peak), |UnionBytes(CurrentBooks(), mapping, page)|)
    {
      hide BooksOk, UnionBytes, CommonCoalesced, Safe, Accounted, TouchedBytes, IsPowerOfTwo, LeasesOk, Granted;
      if common != [] { return Some(CommonAlreadyRetained); }
      NoCommonCoalesced();
      assert CommonCoalesced();
      ghost var before, was := CurrentBooks(), advised;
      ghost var clean := NoRefusal(diag);
      var ok := WillNeedAll(ranges, answers);
      if !ok {
        StillSafe(before, was, advised, mapping, page);
        return Some(WillNeedFailed);
      }
      assert ranges[..|ranges|] == ranges;
      common := ranges;
      commonBytes := ByteCount(ranges);
      RetainedOk(before, ranges, was, clean, mapping, page);
      NotePeak();
      failure := None;
    }

    method Enter(key: string, ranges: seq<Range>, ghost who: nat) returns (id: nat)
      requires nextId == |takers| + 1 && LeasesOk(active, takers, returned) && CountersOk(diag, |active|)
      modifies `nextId, `active, `regions, `diag, `takers
      ensures id == old(nextId) && nextId == id + 1 && takers == old(takers) + [who]
      ensures CurrentBooks() == Acquired(old(CurrentBooks()), id, key, ranges)
      ensures LeasesOk(active, takers, returned)
      ensures diag == Entered(old(diag)) && CountersOk(diag, |active|)
    {
      hide LeasesOk;
      EntryKeeps(active, takers, returned, ActiveLease(key, ranges), who);
      id := nextId;
      nextId := nextId + 1;
      active := active[id := ActiveLease(key, ranges)];
      takers := takers + [who];
      var region := if key in regions then regions[key] else Region(0, []);
      regions := regions[key := Region(region.count + 1, region.pending + ranges)];
      diag := diag.(acquired := diag.acquired + 1, active := diag.active + 1,
                    leaseHighWater := Max(diag.leaseHighWater, diag.active + 1));
    }

    // Put a lease on the books and note how much is advised by now.
    method Record(key: string, ranges: seq<Range>, ghost who: nat) returns (id: nat)
      requires Kept() && AllWithin(ranges, mapping)
      modifies `nextId, `active, `regions, `diag, `takers, `peak
      ensures Kept() && id == old(nextId) == |takers| && takers == old(takers) + [who]
      ensures CurrentBooks() == Acquired(old(CurrentBooks()), id, key, ranges)
      ensures OnlyHighWater(Entered(old(diag)), diag)
      ensures peak == Max(old(peak), |UnionBytes(CurrentBooks(), mapping, page)|)
    {
      hide BooksOk, UnionBytes, CommonCoalesced, IsPowerOfTwo, Acquired, CountersOk, LeasesOk;
      FreshId(active, takers, returned);
      AcquiredOk(CurrentBooks(), mapping, nextId, key, ranges);
      id := Enter(key, ranges, who);
      ghost var entered := diag;
      NotePeak();
      HighWaterCounters(entered, diag, |active|);
    }

    // A lease is on the books only when every range has been advised.
    method Acquire(key: string, ranges: seq<Range>, answers: Answers, ghost who: nat) returns (r: Result<nat, Failure>)
      requires Valid() && AllWithin(ranges, mapping)
      modifies this
      ensures Valid() && Taken(old(Now()), Now(), who, key, ranges, answers, mapping, page)
      ensures r.Ok? <==> ranges != [] && !old(diag).poisoned && forall n | 0 <= n < |ranges| :: answers(n)
      ensures r.Ok? ==> r.value == old(nextId)
      ensures r.Err? ==>
        r.error == if ranges == [] then EmptyLease else if old(diag).poisoned then Poisoned else WillNeedFailed
      ensures peak == Max(old(peak), |UnionBytes(CurrentBooks(), mapping, page)|)
    {
      hide BooksOk, UnionBytes, CommonCoalesced, Safe, Accounted, TouchedBytes, IsPowerOfTwo, Acquired, CountersOk,
        LeasesOk, Granted;
      if ranges == [] { return Err(EmptyLease); }
      if diag.poisoned { return Err(Poisoned); }
      ghost var before, was := CurrentBooks(), advised;
      ghost var clean := NoRefusal(diag);
      FreshId(active, takers, returned);
      CountersStay(diag, |active|, answers, |ranges|);
      var ok := WillNeedAll(ranges, answers);
      if !ok {
        StillSafe(before, was, advised, mapping, page);
        return Err(WillNeedFailed);
      }
      assert ranges[..|ranges|] == ranges;
      var id := Record(key, ranges, who);
      AcquiredKeeps(before, id, key, ranges, was, clean, mapping, page);
      r := Ok(id);
    }

    // The last lease of a key gives its pending pages back, except protected ones.
    // `key` is the one the lease was acquired under.
    method Release(id: nat, key: string, complete: bool, answers: Answers) returns (failure: Option<Failure>)
      requires Valid() && (id in active ==> active[id].key == key)
      modifies this
      ensures Valid() && Given(old(Now()), Now(), id, complete, answers, mapping, page)
      ensures failure == Some(ReleasedBeforeCompletion) <==> old(id in active) && !complete
      ensures failure == Some(DontNeedFailed) <==> diag.dontNeedFailures > old(diag).dontNeedFailures
      ensures failure == Some(DontNeedFailed) ==> exists n: nat :: !answers(n)
      ensures failure.Some? ==> failure == Some(ReleasedBeforeCompletion) || failure == Some(DontNeedFailed)
      ensures peak == Max(old(peak), |UnionBytes(CurrentBooks(), mapping, page)|)
      ensures advised <= old(advised) && old(advised) - advised !! UnionBytes(CurrentBooks(), mapping, page)
    {
      hide BooksOk, UnionBytes, CommonCoalesced, Safe, Accounted, TouchedBytes, Returnable, RegionOf, IsPowerOfTwo,
        Released, CountersOk, LeasesOk, Granted;
      if id !in active { return None; }
      if !complete {
        PrematureCounters(diag, |active|);
        diag := diag.(prematureReleases := diag.prematureReleases + 1, poisoned := true);
        return Some(ReleasedBeforeCompletion);
      }
      ghost var start, before, was := Now(), CurrentBooks(), advised;
      ghost var clean := NoRefusal(diag);
      var pending := Leave(id, key);
      ReleasedShrinks(before, id, mapping, page);
      if pending == None {
        ReleasedEarly(before, id, was, clean, mapping, page);
        return None;
      }
      ghost var out;
      failure, out := GiveBack(pending.value, answers);
      assert Returns(start, Now(), pending.value, out, answers, mapping, page);
      ReleasedLast(before, id, was, advised, NoRefusal(diag), mapping, page);
    }

    // Advise away what nobody protects; a refusal poisons the coordinator.
    method GiveBack(pending: seq<Range>, answers: Answers) returns (failure: Option<Failure>, ghost out: seq<Range>)
      requires Geometry(mapping, page) && mapping <= SIZE_MAX && BooksOk(CurrentBooks(), mapping)
      requires AllWithin(pending, mapping)
      modifies `diag, `advised
      ensures GivesBack(CurrentBooks(), pending, out, mapping, page)
      ensures failure == None <==> forall n | 0 <= n < |out| :: answers(n)
      ensures failure.Some? ==> failure == Some(DontNeedFailed)
      ensures failure == None <==> Refused(answers, |out|) == 0
      ensures advised == old(advised) - TouchedBytes(out[..Made(answers, |out|)], mapping, page)
      ensures var gone := Returnable(CurrentBooks(), pending, mapping, page);
        old(advised) - gone <= advised <= old(advised) && (failure == None ==> advised == old(advised) - gone)
      ensures diag == DontNeeds(old(diag), answers, |out|)
      ensures forall live: nat | CountersOk(old(diag), live) :: CountersOk(diag, live)
    {
      hide BooksOk, Returnable, TouchedBytes, AllWithin, Granted;
      var releasable := Releasable(pending);
      out := releasable;
      var ok := DontNeedAll(releasable, answers);
      PrefixBytes(out, Made(answers, |out|), mapping, page);
      assert Refused(answers, |out|) == 0 ==> out[..Made(answers, |out|)] == out;
      if !ok {
        diag := diag.(poisoned := true);
        return Some(DontNeedFailed), out;
      }
      failure := None;
    }

    // The pages of `pending` that are not protected.
    method Releasable(pending: seq<Range>) returns (out: seq<Range>)
      requires Geometry(mapping, page) && mapping <= SIZE_MAX && BooksOk(CurrentBooks(), mapping)
      requires AllWithin(pending, mapping)
      ensures GivesBack(CurrentBooks(), pending, out, mapping, page)
    {
      hide BooksOk, Covers, Touched, PageClosed, IsPowerOfTwo, LeaseTouches, Coalesced, Protected, GivesBack;
      WithinBooks(CurrentBooks(), mapping);
      var aligned := PageAlignAndCoalesce(pending, mapping, page);
      var leased := CollectActive();
      var guards := common + leased;
      var protected: seq<Range> := [];
      if guards != [] {
        var r := PageAlignAndCoalesce(guards, mapping, page);
        protected := r.value;
      } else {
        NothingCoalesced(mapping, page);
      }
      CoalescedCanonical(protected, guards, mapping, page);
      var left := SubtractRanges(aligned.value, protected);
      out := left.value;
      CoalescedCanonical(aligned.value, pending, mapping, page);
      LeftIsReturnable(CurrentBooks(), pending, aligned.value, leased, protected, out, mapping, page);
    }

    // Take a lease off the books; the pending ranges of its key, if it was the last one.
    method Leave(id: nat, key: string) returns (pending: Option<seq<Range>>)
      requires BooksOk(CurrentBooks(), mapping) && id in active && active[id].key == key && CountersOk(diag, |active|)
      requires LeasesOk(active, takers, returned)
      modifies `active, `regions, `diag, `returned
      ensures old(diag).active > 0 && diag == Left(old(diag)) && CountersOk(diag, |active|)
      ensures returned == old(returned) + [id] && LeasesOk(active, takers, returned)
      ensures CurrentBooks() == Released(old(CurrentBooks()), id)
      ensures RegionOf(old(CurrentBooks()), key).count > 0
      ensures pending
           == var region := RegionOf(old(CurrentBooks()), key); if region.count == 1 then Some(region.pending) else None
      ensures pending.Some? ==> AllWithin(pending.value, mapping)
    {
      hide BooksOk, AllWithin, LeasesOk;
      LeaveFacts(CurrentBooks(), mapping, id);
      ReturnKeeps(active, takers, returned, id);
      var region := regions[key];
      diag := diag.(completions := diag.completions + 1, active := diag.active - 1, released := diag.released + 1);
      active := active - {id};
      returned := returned + [id];
      if region.count - 1 != 0 {
        regions := regions[key := Region(region.count - 1, region.pending)];
        return None;
      }
      regions := regions[key := Region(0, [])];
      pending := Some(region.pending);
    }

    lemma NoCommonCoalesced()
      requires page > 0 && common == []
      ensures CommonCoalesced()
    {
    }
  }

  // ---- Whole runs ----

  // `who` tells requests apart.
  datatype Op =
    | Retain(ranges: seq<Range>, answers: Answers)
    | Take(who: nat, key: string, ranges: seq<Range>, answers: Answers)
    | Give(id: nat, complete: bool, answers: Answers)

  ghost predicate OpWithin(op: Op, mapping: nat) { op.Give? || AllWithin(op.ranges, mapping) }

  // The system refuses nothing the operation asks.
  ghost predicate AllGranted(op: Op) { forall n: nat :: op.answers(n) }

  // What an operation does to everything the coordinator keeps.
  ghost predicate Follows(op: Op, was: Moment, now: Moment, mapping: nat, page: nat)
    requires page > 0
  {
    match op
    case Retain(ranges, answers) => Retained(was, now, ranges, answers, mapping, page)
    case Take(who, key, ranges, answers) => Taken(was, now, who, key, ranges, answers, mapping, page)
    case Give(id, complete, answers) => Given(was, now, id, complete, answers, mapping, page)
  }

  ghost function Start(): Moment {
    Moment(Books(map[], map[], []), {}, [], [], Diagnostics(0, 0, 0, 0, 0, 0, 0, 0, 0, 0, false, 0))
  }

  // A step the system grants everything refuses nothing.
  lemma GrantedStep(op: Op, was: Moment, now: Moment, mapping: nat, page: nat)
    requires page > 0 && Follows(op, was, now, mapping, page) && AllGranted(op)
    ensures now.diag.willNeedFailures == was.diag.willNeedFailures
    ensures now.diag.dontNeedFailures == was.diag.dontNeedFailures
    ensures NoRefusal(was.diag) ==> NoRefusal(now.diag)
    ensures now.diag.poisoned ==> was.diag.poisoned || (op.Give? && !op.complete)
  {
    hide TouchedBytes, GivesBack, Acquired, Released;
  }

  // A release takes nothing from the pages of common or of an active lease.
  ghost predicate SparesProtected(op: Op, was: Moment, now: Moment, mapping: nat, page: nat)
    requires page > 0
  {
    op.Give? ==> was.advised - now.advised !! UnionBytes(now.books, mapping, page)
  }

  ghost function Highest(history: seq<Moment>, mapping: nat, page: nat): nat
    requires page > 0
  {
    if history == [] then 0
    else Max(Highest(history[..|history| - 1], mapping, page), |UnionBytes(Last(history).books, mapping, page)|)
  }

  method Operate(c: Coordinator, op: Op)
    requires c.Valid() && OpWithin(op, c.mapping)
    modifies c
    ensures c.Valid() && Follows(op, old(c.Now()), c.Now(), c.mapping, c.page)
    ensures c.peak == Max(old(c.peak), |UnionBytes(c.CurrentBooks(), c.mapping, c.page)|)
    ensures SparesProtected(op, old(c.Now()), c.Now(), c.mapping, c.page)
  {
    hide UnionBytes, Accounted, Safe, BooksOk, CountersOk, IsPowerOfTwo, Coordinator.CommonCoalesced, LeasesOk,
      Retained, Taken, Given;
    match op
    case Retain(ranges, answers) => var _ := c.RetainCommon(ranges, answers);
    case Take(who, key, ranges, answers) => var _ := c.Acquire(key, ranges, answers, who);
    case Give(id, complete, answers) =>
      var key := if id in c.active then c.active[id].key else "";
      var _ := c.Release(id, key, complete, answers);
  }

  lemma LeaveFacts(k: Books, mapping: nat, id: nat)
    requires BooksOk(k, mapping) && id in k.active
    ensures var key := k.active[id].key;
      key in k.regions && k.regions[key].count > 0 && AllWithin(k.regions[key].pending, mapping)
    ensures |k.active - {id}| == |k.active| - 1 && (k.active - {id}).Keys == k.active.Keys - {id}
  {
    HolderCounts(k, id);
    assert (k.active - {id}).Keys == k.active.Keys - {id};
    assert |k.active - {id}| == |(k.active - {id}).Keys|;
  }

  lemma PrematureCounters(d: Diagnostics, live: nat)
    requires CountersOk(d, live)
    ensures CountersOk(d.(prematureReleases := d.prematureReleases + 1, poisoned := true), live)
  {
  }

  lemma CountersStay(d: Diagnostics, live: nat, answers: Answers, n: nat)
    requires CountersOk(d, live)
    ensures CountersOk(WillNeeds(d, answers, n), live)
  {
  }

  lemma HighWaterCounters(was: Diagnostics, now: Diagnostics, live: nat)
    requires CountersOk(was, live) && OnlyHighWater(was, now)
    ensures CountersOk(now, live)
  {
  }

  lemma EntryKeeps(active: map<nat, ActiveLease>, takers: seq<nat>, returned: seq<nat>, lease: ActiveLease, who: nat)
    requires LeasesOk(active, takers, returned)
    ensures LeasesOk(active[|takers| + 1 := lease], takers + [who], returned)
    ensures |takers| + 1 !in active && |active[|takers| + 1 := lease]| == |active| + 1
  {
  }

  lemma ReturnKeeps(active: map<nat, ActiveLease>, takers: seq<nat>, returned: seq<nat>, id: nat)
    requires LeasesOk(active, takers, returned) && id in active
    ensures LeasesOk(active - {id}, takers, returned + [id])
  {
  }

  lemma FreshId(active: map<nat, ActiveLease>, takers: seq<nat>, returned: seq<nat>)
    requires LeasesOk(active, takers, returned)
    ensures |takers| + 1 !in active
  {
  }

  // ---- When the accounts survive a refusal ----

  // What a refused acquisition leaves advised is accounted for exactly when it already was
  // explained; the books owe it to nobody otherwise.
  lemma RefusedTake(was: Moment, now: Moment, who: nat, key: string, ranges: seq<Range>, answers: Answers, mapping: nat,
                    page: nat)
    requires page > 0 && Taken(was, now, who, key, ranges, answers, mapping, page)
    requires ranges != [] && !was.diag.poisoned && Granted(answers, |ranges|) < |ranges|
    requires Accounted(was.books, was.advised, mapping, page)
    ensures var left := TouchedBytes(ranges[..Granted(answers, |ranges|)], mapping, page);
      && (Accounted(now.books, now.advised, mapping, page) <==> forall b | b in left :: Explained(was.books, b, page))
      && (now.advised == was.advised <==> left <= was.advised)
  {
    hide Touched, Owed;
    var left := TouchedBytes(ranges[..Granted(answers, |ranges|)], mapping, page);
    if Accounted(now.books, now.advised, mapping, page) {
      forall b | b in left ensures Explained(was.books, b, page) { assert b in now.advised; }
    }
  }

  // So for a refused common: nothing is common yet, and what it leaves must be owed.
  lemma RefusedRetain(was: Moment, now: Moment, ranges: seq<Range>, answers: Answers, mapping: nat, page: nat)
    requires page > 0 && Retained(was, now, ranges, answers, mapping, page)
    requires was.books.common == [] && Granted(answers, |ranges|) < |ranges|
    requires Accounted(was.books, was.advised, mapping, page)
    ensures var left := TouchedBytes(ranges[..Granted(answers, |ranges|)], mapping, page);
      Accounted(now.books, now.advised, mapping, page) <==> forall b | b in left :: Owed(was.books, b, page)
  {
    hide Touches, Owed;
    var left := TouchedBytes(ranges[..Granted(answers, |ranges|)], mapping, page);
    if Accounted(now.books, now.advised, mapping, page) {
      forall b | b in left ensures Owed(was.books, b, page) {
        assert b in now.advised && Explained(was.books, b, page);
      }
    }
  }

  // Two pages, the second refused: the first stays advised, and nobody owes it.
  lemma StrandedPage(now: Moment, answers: Answers, mapping: nat, page: nat)
    requires page > 0 && mapping >= 2 * page && answers(0) && !answers(1)
    requires Follows(Take(0, "k", [Range(0, page), Range(page, page)], answers), Start(), now, mapping, page)
    ensures now.books == Start().books && now.advised != {}
    ensures !Accounted(now.books, now.advised, mapping, page)
  {
    hide TouchedBytes, Granted, Explained, Acquired;
    var ranges := [Range(0, page), Range(page, page)];
    assert Granted(answers, 2) == 1;
    assert ranges[..1] == [Range(0, page)];
    FirstByteTouched(mapping, page);
    NothingExplained(0, page);
  }

  lemma FirstByteTouched(mapping: nat, page: nat)
    requires 0 < page <= mapping
    ensures 0 in TouchedBytes([Range(0, page)], mapping, page)
  {
    var r := Range(0, page);
    assert Inside(r, 0) && Touches([r][0], 0, page);
  }

  lemma NothingExplained(b: nat, page: nat)
    requires page > 0
    ensures !Explained(Start().books, b, page)
  {
  }

  // With no lease left and nothing unexplained, exactly common is advised.
  lemma Quiet(k: Books, advised: set<nat>, mapping: nat, page: nat)
    requires page > 0 && BooksOk(k, mapping) && k.active == map[]
    requires Safe(k, advised, mapping, page) && Accounted(k, advised, mapping, page)
    ensures advised == TouchedBytes(k.common, mapping, page)
  {
    hide Touched;
    forall key | key in k.regions ensures k.regions[key].count == 0 { assert Holders(k.active, key) == {}; }
    assert forall b: nat :: !Owed(k, b, page);
  }

  lemma HighestOne(history: seq<Moment>, mapping: nat, page: nat)
    requires page > 0 && |history| == 1
    ensures Highest(history, mapping, page) == |UnionBytes(history[0].books, mapping, page)|
  {
    assert history[..0] == [];
  }

  lemma HighestNext(history: seq<Moment>, now: Moment, mapping: nat, page: nat)
    requires page > 0
    ensures Highest(history + [now], mapping, page)
         == Max(Highest(history, mapping, page), |UnionBytes(now.books, mapping, page)|)
  {
    assert (history + [now])[..|history|] == history;
  }

  // What holds at every moment of every run.
  ghost predicate Sound(m: Moment, mapping: nat, page: nat)
    requires page > 0
  {
    && Safe(m.books, m.advised, mapping, page)
    && LeasesOk(m.books.active, m.takers, m.returned)
    && CountersOk(m.diag, |m.books.active|) && m.diag.acquired == |m.takers| && m.diag.released == |m.returned|
    && (NoRefusal(m.diag) ==>
          && Accounted(m.books, m.advised, mapping, page)
          && (m.books.active == map[] ==> m.advised == TouchedBytes(m.books.common, mapping, page)))
  }

  lemma ValidIsSound(c: Coordinator)
    requires c.Valid()
    ensures Sound(c.Now(), c.mapping, c.page)
  {
    hide UnionBytes, Safe, Accounted, BooksOk, LeasesOk, CountersOk, Coordinator.CommonCoalesced, TouchedBytes;
    if NoRefusal(c.diag) && c.active == map[] { Quiet(c.CurrentBooks(), c.advised, c.mapping, c.page); }
  }

  // Any operations in any order, each call to the system answered at will.
  method Run(mapping: nat, page: nat, ops: seq<Op>) returns (c: Coordinator, ghost history: seq<Moment>)
    requires Geometry(mapping, page) && mapping <= SIZE_MAX
    requires forall i | 0 <= i < |ops| :: OpWithin(ops[i], mapping)
    ensures fresh(c) && c.Valid() && c.mapping == mapping && c.page == page
    ensures |history| == |ops| + 1 && history[0] == Start() && Last(history) == c.Now()
    ensures forall i | 0 <= i < |ops| :: Follows(ops[i], history[i], history[i + 1], mapping, page)
    ensures forall i | 0 <= i < |ops| :: SparesProtected(ops[i], history[i], history[i + 1], mapping, page)
    ensures forall i | 0 <= i < |history| :: Sound(history[i], mapping, page)
    ensures forall i | 0 <= i < |history| && (forall j | 0 <= j < i :: AllGranted(ops[j])) :: NoRefusal(history[i].diag)
    ensures c.CommonCoalesced() ==> c.diag.advisedHighWater == Highest(history, mapping, page)
  {
    hide UnionBytes, IsPowerOfTwo, Coordinator.CommonCoalesced, Coordinator.Valid, OpWithin, Follows, Sound,
      SparesProtected, AllGranted, NoRefusal, Highest;
    c := new Coordinator(mapping, page);
    assert NoRefusal(c.diag) by { StartsClean(); }
    history := [c.Now()];
    HighestOne(history, mapping, page);
    NothingProtected(mapping, page);
    ValidIsSound(c);
    for n := 0 to |ops|
      invariant fresh(c) && c.Valid() && c.mapping == mapping && c.page == page
      invariant |history| == n + 1 && history[0] == Start() && Last(history) == c.Now()
      invariant forall i | 0 <= i < n :: Follows(ops[i], history[i], history[i + 1], mapping, page)
      invariant forall i | 0 <= i < n :: SparesProtected(ops[i], history[i], history[i + 1], mapping, page)
      invariant forall i | 0 <= i < |history| :: Sound(history[i], mapping, page)
      invariant forall i | 0 <= i < |history| && (forall j | 0 <= j < i :: AllGranted(ops[j])) ::
        NoRefusal(history[i].diag)
      invariant c.peak == Highest(history, mapping, page)
    {
      Operate(c, ops[n]);
      ghost var now := c.Now();
      ValidIsSound(c);
      if AllGranted(ops[n]) { GrantedStep(ops[n], history[n], now, mapping, page); }
      HighestNext(history, now, mapping, page);
      history := history + [now];
    }
    PeakRecorded(c);
  }

  lemma PeakRecorded(c: Coordinator)
    requires c.Valid()
    ensures c.CommonCoalesced() ==> c.diag.advisedHighWater == c.peak
  {
  }

  lemma StartsClean()
    ensures NoRefusal(Start().diag)
  {
  }

  method CollectRanges(active: map<nat, ActiveLease>, mapping: nat, page: nat) returns (ranges: seq<Range>)
    requires page > 0 && forall id | id in active :: AllWithin(active[id].ranges, mapping)
    ensures AllWithin(ranges, mapping)
    ensures forall b: nat :: Touched(ranges, b, page) <==> LeaseTouches(active, b, page)
  {
    hide Touched, SomeTouches, LeaseTouches, Gathered, AllWithin;
    ranges := [];
    NothingGathered(active, mapping, page);
    var left := active.Keys;
    assert active.Keys - left == {};
    while left != {}
      invariant left <= active.Keys && Gathered(active, active.Keys - left, ranges, mapping, page)
      decreases |left|
    {
      var id :| id in left;
      GatherNext(active, active.Keys - left, ranges, id, mapping, page);
      ranges := ranges + active[id].ranges;
      assert active.Keys - (left - {id}) == active.Keys - left + {id};
      left := left - {id};
    }
    assert active.Keys - left == active.Keys;
    AllGathered(active, ranges, mapping, page);
  }

  lemma CoalescedCanonical(out: seq<Range>, ranges: seq<Range>, mapping: nat, page: nat)
    requires page > 0 && Coalesced(out, ranges, mapping, page)
    ensures Canonical(out)
  {
  }

  // Pending pages, less the pages of common and of every lease, are what may be returned.
  lemma LeftIsReturnable(k: Books, pending: seq<Range>, aligned: seq<Range>, leased: seq<Range>, protected: seq<Range>,
                         out: seq<Range>, mapping: nat, page: nat)
    requires page > 0 && Coalesced(aligned, pending, mapping, page)
    requires Coalesced(protected, k.common + leased, mapping, page)
    requires forall b: nat :: Touched(leased, b, page) <==> LeaseTouches(k.active, b, page)
    requires Canonical(out) && forall b: nat :: Covers(out, b) <==> Covers(aligned, b) && !Covers(protected, b)
    ensures GivesBack(k, pending, out, mapping, page)
  {
    CoalescedClosed(aligned, pending, mapping, page);
    CoalescedClosed(protected, k.common + leased, mapping, page);
    DifferenceClosed(out, aligned, protected, mapping, page);
    hide Covers, Touched, PageClosed, LeaseTouches;
    CoveredWithin(out, mapping);
    forall b: nat | b < mapping
      ensures Touched(out, b, page) <==> Touched(pending, b, page) && !Protected(k, b, page)
    {
      ClosedTouches(out, mapping, page, b);
      TouchedAppend(k.common, leased, b, page);
    }
  }

  ghost predicate SomeTouches(active: map<nat, ActiveLease>, ids: set<nat>, b: nat, page: nat)
    requires page > 0 && ids <= active.Keys
  {
    exists id :: id in ids && Touched(active[id].ranges, b, page)
  }

  lemma SomeTouchesNext(active: map<nat, ActiveLease>, ids: set<nat>, id: nat, b: nat, page: nat)
    requires page > 0 && ids <= active.Keys && id in active
    ensures SomeTouches(active, ids + {id}, b, page) <==>
      SomeTouches(active, ids, b, page) || Touched(active[id].ranges, b, page)
  {
    hide Touched;
    if SomeTouches(active, ids, b, page) {
      var other :| other in ids && Touched(active[other].ranges, b, page);
      assert other in ids + {id};
    }
    if Touched(active[id].ranges, b, page) { assert id in ids + {id}; }
  }

  // The list holds the ranges of these leases and no others.
  ghost predicate Gathered(active: map<nat, ActiveLease>, ids: set<nat>, ranges: seq<Range>, mapping: nat, page: nat)
    requires page > 0
  {
    && ids <= active.Keys && AllWithin(ranges, mapping)
    && forall b: nat :: Touched(ranges, b, page) <==> SomeTouches(active, ids, b, page)
  }

  lemma NothingGathered(active: map<nat, ActiveLease>, mapping: nat, page: nat)
    requires page > 0
    ensures Gathered(active, {}, [], mapping, page)
  {
  }

  lemma GatherNext(active: map<nat, ActiveLease>, ids: set<nat>, ranges: seq<Range>, id: nat, mapping: nat, page: nat)
    requires page > 0 && Gathered(active, ids, ranges, mapping, page) && id in active
    requires AllWithin(active[id].ranges, mapping)
    ensures Gathered(active, ids + {id}, ranges + active[id].ranges, mapping, page)
  {
    hide Touched, SomeTouches;
    forall b: nat ensures Touched(ranges + active[id].ranges, b, page) <==> SomeTouches(active, ids + {id}, b, page) {
      TouchedAppend(ranges, active[id].ranges, b, page);
      SomeTouchesNext(active, ids, id, b, page);
    }
  }

  lemma AllGathered(active: map<nat, ActiveLease>, ranges: seq<Range>, mapping: nat, page: nat)
    requires page > 0 && Gathered(active, active.Keys, ranges, mapping, page)
    ensures AllWithin(ranges, mapping)
    ensures forall b: nat :: Touched(ranges, b, page) <==> LeaseTouches(active, b, page)
  {
    hide Touched;
    forall b: nat ensures SomeTouches(active, active.Keys, b, page) <==> LeaseTouches(active, b, page) {}
  }

  lemma WithinBooks(k: Books, mapping: nat)
    requires BooksOk(k, mapping)
    ensures AllRangesWithin(k, mapping) && CountsRight(k)
  {
  }

  lemma NothingProtected(mapping: nat, page: nat)
    requires page > 0
    ensures UnionBytes(Books(map[], map[], []), mapping, page) == {}
  {
  }

  lemma AppendBytes(a: seq<Range>, r: Range, mapping: nat, page: nat)
    requires page > 0
    ensures TouchedBytes(a + [r], mapping, page) == TouchedBytes(a, mapping, page) + TouchedBytes([r], mapping, page)
  {
    forall b: nat ensures Touched(a + [r], b, page) <==> Touched(a, b, page) || Touched([r], b, page) {
      TouchedAppend(a, [r], b, page);
    }
  }

  lemma PrefixBytes(rs: seq<Range>, n: nat, mapping: nat, page: nat)
    requires page > 0 && n <= |rs|
    ensures TouchedBytes(rs[..n], mapping, page) <= TouchedBytes(rs, mapping, page)
  {
    forall b: nat ensures Touched(rs[..n], b, page) ==> Touched(rs, b, page) {
      TouchedWithin(rs[..n], rs, b, page);
    }
  }

  lemma NothingCoalesced(mapping: nat, page: nat)
    requires page > 0
    ensures Coalesced([], [], mapping, page)
  {
  }

  // Common, plus what the leases add to it, is exactly the union.
  lemma UnionSize(k: Books, ranges: seq<Range>, coalesced: seq<Range>, rest: seq<Range>, mapping: nat, page: nat)
    requires page > 0 && AllWithin(k.common, mapping) && Canonical(k.common) && PageClosed(k.common, mapping, page)
    requires forall b: nat :: Touched(ranges, b, page) <==> LeaseTouches(k.active, b, page)
    requires Coalesced(coalesced, ranges, mapping, page)
    requires Canonical(rest) && forall b: nat :: Covers(rest, b) <==> Covers(coalesced, b) && !Covers(k.common, b)
    ensures ByteCount(rest) + ByteCount(k.common) == |UnionBytes(k, mapping, page)|
  {
    hide Covers, Touched, LeaseTouches, PageClosed;
    CoveredWithin(rest, mapping);
    CountIsSize(rest, mapping);
    CountIsSize(k.common, mapping);
    forall b: nat | b < mapping
      ensures Protected(k, b, page) <==> Covers(rest, b) || Covers(k.common, b)
    {
      ClosedTouches(k.common, mapping, page, b);
    }
    assert UnionBytes(k, mapping, page) == Bytes(rest, mapping) + Bytes(k.common, mapping);
    assert Bytes(rest, mapping) !! Bytes(k.common, mapping);
  }

  lemma StillSafe(k: Books, before: set<nat>, after: set<nat>, mapping: nat, page: nat)
    requires page > 0 && Safe(k, before, mapping, page) && before <= after
    ensures Safe(k, after, mapping, page)
  {
  }

  lemma RetainedOk(k: Books, ranges: seq<Range>, advised: set<nat>, clean: bool, mapping: nat, page: nat)
    requires page > 0 && BooksOk(k, mapping) && k.common == [] && AllWithin(ranges, mapping)
    requires Safe(k, advised, mapping, page) && (clean ==> Accounted(k, advised, mapping, page))
    ensures var (after, now) := (k.(common := ranges), advised + TouchedBytes(ranges, mapping, page));
      && BooksOk(after, mapping) && Safe(after, now, mapping, page)
      && (clean ==> Accounted(after, now, mapping, page))
  {
    hide Touches;
  }

  lemma AcquiredKeeps(k: Books, id: nat, key: string, ranges: seq<Range>, advised: set<nat>, clean: bool, mapping: nat,
                      page: nat)
    requires page > 0 && BooksOk(k, mapping) && id !in k.active && AllWithin(ranges, mapping)
    requires Safe(k, advised, mapping, page) && (clean ==> Accounted(k, advised, mapping, page))
    ensures var (after, now) := (Acquired(k, id, key, ranges), advised + TouchedBytes(ranges, mapping, page));
      && BooksOk(after, mapping) && Safe(after, now, mapping, page)
      && (clean ==> Accounted(after, now, mapping, page))
      && |after.active| == |k.active| + 1
  {
    AcquiredOk(k, mapping, id, key, ranges);
    hide Touched, BooksOk;
    forall b: nat
      ensures Protected(Acquired(k, id, key, ranges), b, page) <==> Protected(k, b, page) || Touched(ranges, b, page)
      ensures Owed(k, b, page) || Touched(ranges, b, page) ==> Owed(Acquired(k, id, key, ranges), b, page)
    {
      AcquiredProtects(k, id, key, ranges, b, page);
      AcquiredOwes(k, mapping, id, key, ranges, b, page);
    }
  }

  lemma ReleasedShrinks(k: Books, id: nat, mapping: nat, page: nat)
    requires page > 0 && BooksOk(k, mapping) && id in k.active
    ensures BooksOk(Released(k, id), mapping)
    ensures UnionBytes(Released(k, id), mapping, page) <= UnionBytes(k, mapping, page)
    ensures |UnionBytes(Released(k, id), mapping, page)| <= |UnionBytes(k, mapping, page)|
    ensures |Released(k, id).active| == |k.active| - 1
  {
    HolderCounts(k, id);
    ReleasedOk(k, mapping, id);
    hide Touched, BooksOk;
    forall b: nat ensures Protected(Released(k, id), b, page) ==> Protected(k, b, page) {
      ReleasedProtects(k, id, b, page);
    }
    SubsetSize(UnionBytes(Released(k, id), mapping, page), UnionBytes(k, mapping, page));
  }

  lemma SubsetSize(a: set<nat>, b: set<nat>)
    requires a <= b
    ensures |a| <= |b|
  {
    assert b == a + (b - a);
  }

  // Not the last lease of its key: nothing is given back.
  lemma ReleasedEarly(k: Books, id: nat, advised: set<nat>, clean: bool, mapping: nat, page: nat)
    requires page > 0 && BooksOk(k, mapping) && id in k.active
    requires RegionOf(k, k.active[id].key).count != 1
    requires Safe(k, advised, mapping, page) && (clean ==> Accounted(k, advised, mapping, page))
    ensures Safe(Released(k, id), advised, mapping, page)
    ensures clean ==> Accounted(Released(k, id), advised, mapping, page)
  {
    HolderCounts(k, id);
    ReleasedShrinks(k, id, mapping, page);
    hide Touched, BooksOk, UnionBytes;
    forall b: nat | Owed(k, b, page) ensures Owed(Released(k, id), b, page) { ReleasedOwes(k, id, b, page); }
  }

  // The last lease of its key: exactly its unprotected pending pages are given back.
  lemma ReleasedLast(k: Books, id: nat, was: set<nat>, now: set<nat>, clean: bool, mapping: nat, page: nat)
    requires page > 0 && BooksOk(k, mapping) && id in k.active
    requires var gone := Returnable(Released(k, id), RegionOf(k, k.active[id].key).pending, mapping, page);
      was - gone <= now <= was && (clean ==> now == was - gone)
    requires Safe(k, was, mapping, page) && (clean ==> Accounted(k, was, mapping, page))
    ensures was - now !! UnionBytes(Released(k, id), mapping, page)
    ensures Safe(Released(k, id), now, mapping, page)
    ensures clean ==> Accounted(Released(k, id), now, mapping, page)
  {
    HolderCounts(k, id);
    ReleasedShrinks(k, id, mapping, page);
    var after := Released(k, id);
    assert after.common == k.common;
    hide Touched, BooksOk, Released;
    if clean {
      forall b | b in now
        ensures 0 <= b < mapping && (Touched(after.common, b, page) || Owed(after, b, page))
      {
        if Owed(k, b, page) { ReleasedOwes(k, id, b, page); }
        if LeaseTouches(after.active, b, page) { LeaseOwed(after, mapping, b, page); }
      }
    }
  }
}
