// One request's leases on the shared coordinator: each phase holds one while it
// computes, any step may fail, and other contexts run in between.
module Leases {
  import opened Prelude
  import opened Ranges
  import opened Ledger
  import opened Residency

  // A lease gives itself back once, by hand or when it goes out of scope.
  class Lease {
    const owner: Coordinator
    const id: nat
    const key: string
    var held: bool
    var complete: bool

    constructor (owner: Coordinator, id: nat, key: string)
      ensures this.owner == owner && this.id == id && this.key == key && held && !complete
    {
      this.owner, this.id, this.key := owner, id, key;
      held, complete := true, false;
    }

    method MarkComputeComplete()
      modifies `complete
      ensures complete
    {
      complete := true;
    }

    method Release(answers: Answers) returns (failure: Option<Failure>)
      requires owner.Valid() && (id in owner.active ==> owner.active[id].key == key)
      modifies `held, owner
      ensures owner.Valid() && !held
      ensures if old(held) then Given(old(owner.Now()), owner.Now(), id, complete, answers, owner.mapping, owner.page)
              else failure == None && owner.Now() == old(owner.Now())
      ensures failure == Some(ReleasedBeforeCompletion) <==> old(held) && old(id in owner.active) && !complete
      ensures failure == Some(DontNeedFailed) <==> owner.diag.dontNeedFailures > old(owner.diag).dontNeedFailures
      ensures failure == Some(DontNeedFailed) ==> exists n: nat :: !answers(n)
      ensures failure.Some? ==> failure == Some(ReleasedBeforeCompletion) || failure == Some(DontNeedFailed)
    {
      hide Coordinator.Valid, Given;
      if !held { return None; }
      held := false;
      failure := owner.Release(id, key, complete, answers);
    }

    // Going out of scope: what Release reports is swallowed.
    method Drop(answers: Answers)
      requires owner.Valid() && (id in owner.active ==> owner.active[id].key == key)
      modifies `held, owner
      ensures owner.Valid() && !held
      ensures if old(held) then Given(old(owner.Now()), owner.Now(), id, complete, answers, owner.mapping, owner.page)
              else owner.Now() == old(owner.Now())
    {
      hide Coordinator.Valid, Given;
      var _ := Release(answers);
    }
  }

  // ---- The world around a request ----

  // Which steps fail, what the system answers to advice, and what other contexts do in between.
  datatype World = World(faults: nat -> bool, answers: nat -> Answers, others: nat -> seq<Op>)

  // Other contexts take leases in their own name, and release only after their computations.
  ghost predicate OpsOk(ops: seq<Op>, mapping: nat, me: nat) {
    forall i | 0 <= i < |ops| ::
      OpWithin(ops[i], mapping) && (ops[i].Give? ==> ops[i].complete) && (ops[i].Take? ==> ops[i].who != me)
  }

  ghost predicate WorldOk(world: World, mapping: nat, me: nat) {
    forall k: nat :: OpsOk(world.others(k), mapping, me)
  }

  ghost predicate AllGrantedIn(ops: seq<Op>) { forall i | 0 <= i < |ops| :: AllGranted(ops[i]) }

  // The system refuses nobody anything.
  ghost predicate Granting(world: World) {
    (forall k: nat, n: nat :: world.answers(k)(n)) && forall k: nat :: AllGrantedIn(world.others(k))
  }

  // Nobody else is there.
  ghost predicate Undisturbed(world: World) { forall k: nat :: world.others(k) == [] }

  // ---- What lies between two moments ----

  // Leases are only added and given back, nobody releases early, refusals are kept, and so
  // is what is common.
  ghost predicate Later(was: Moment, now: Moment) {
    && was.takers <= now.takers && was.returned <= now.returned
    && now.diag.prematureReleases == was.diag.prematureReleases
    && now.diag.willNeedFailures >= was.diag.willNeedFailures && now.diag.dontNeedFailures >= was.diag.dontNeedFailures
    && (was.books.common != [] ==> now.books.common == was.books.common)
  }

  ghost predicate NothingRefused(was: Moment, now: Moment) {
    now.diag.willNeedFailures == was.diag.willNeedFailures && now.diag.dontNeedFailures == was.diag.dontNeedFailures
  }

  // How many leases a request has taken.
  ghost function TakenBy(m: Moment, me: nat): nat { multiset(m.takers)[me] }

  // Others took nothing in my name and left my lease alone.
  ghost predicate Spared(was: Moment, now: Moment, me: nat, mine: Option<nat>) {
    && TakenBy(now, me) == TakenBy(was, me)
    && (forall i | |was.takers| <= i < |now.takers| :: now.takers[i] != me)
    && (mine.Some? && mine.value in was.books.active ==>
          mine.value in now.books.active && now.books.active[mine.value] == was.books.active[mine.value])
  }

  // Every lease this request took after the first `since` has come back.
  ghost predicate Settled(m: Moment, me: nat, since: nat) {
    forall id | since < id <= |m.takers| && m.takers[id - 1] == me :: id in m.returned
  }

  // Every one but this, which it still holds.
  ghost predicate Holding(m: Moment, me: nat, since: nat, mine: nat) {
    && since < mine <= |m.takers| && m.takers[mine - 1] == me && mine in m.books.active
    && forall id | since < id <= |m.takers| && m.takers[id - 1] == me && id != mine :: id in m.returned
  }

  lemma LaterStill(a: Moment, b: Moment, c: Moment)
    requires Later(a, b) && Later(b, c)
    ensures Later(a, c)
  {
  }

  lemma Unmoved(m: Moment)
    ensures Later(m, m)
  {
  }

  lemma InPrefix(a: seq<nat>, b: seq<nat>, x: nat)
    requires a <= b && x in a
    ensures x in b
  {
    var i :| 0 <= i < |a| && a[i] == x;
    assert b[i] == x;
  }

  lemma StillSettled(was: Moment, now: Moment, me: nat, since: nat)
    requires Settled(was, me, since) && Later(was, now) && Spared(was, now, me, None)
    ensures Settled(now, me, since)
  {
    forall id | since < id <= |now.takers| && now.takers[id - 1] == me ensures id in now.returned {
      assert id <= |was.takers| && was.takers[id - 1] == now.takers[id - 1];
      InPrefix(was.returned, now.returned, id);
    }
  }

  lemma StillHolding(was: Moment, now: Moment, me: nat, since: nat, mine: nat)
    requires Holding(was, me, since, mine) && Later(was, now) && Spared(was, now, me, Some(mine))
    ensures Holding(now, me, since, mine)
  {
    forall id | since < id <= |now.takers| && now.takers[id - 1] == me && id != mine ensures id in now.returned {
      assert id <= |was.takers| && was.takers[id - 1] == now.takers[id - 1];
      InPrefix(was.returned, now.returned, id);
    }
  }

  // ---- Single steps ----

  lemma StepLater(op: Op, was: Moment, now: Moment, mapping: nat, page: nat)
    requires page > 0 && Follows(op, was, now, mapping, page) && (op.Give? ==> op.complete)
    ensures Later(was, now) && (AllGranted(op) ==> NothingRefused(was, now))
  {
    hide TouchedBytes, GivesBack;
    if AllGranted(op) { GrantedStep(op, was, now, mapping, page); }
  }

  lemma StepSpares(op: Op, was: Moment, now: Moment, mapping: nat, page: nat, me: nat, mine: Option<nat>)
    requires page > 0 && Follows(op, was, now, mapping, page)
    requires LeasesOk(was.books.active, was.takers, was.returned)
    requires (op.Take? ==> op.who != me) && !(op.Give? && mine == Some(op.id))
    ensures Spared(was, now, me, mine)
  {
    hide TouchedBytes, GivesBack, RegionOf, Granted;
    if op.Take? { assert now.takers == was.takers || now.takers == was.takers + [op.who]; }
    if op.Give? && op.id in was.books.active && op.complete {
      assert now.books.active == was.books.active - {op.id};
    }
  }

  lemma SparedStill(a: Moment, b: Moment, c: Moment, me: nat, mine: Option<nat>)
    requires Later(a, b) && Later(b, c) && Spared(a, b, me, mine) && Spared(b, c, me, mine)
    ensures Spared(a, c, me, mine)
  {
    forall i | |a.takers| <= i < |c.takers| ensures c.takers[i] != me {
      if i < |b.takers| { assert b.takers[i] == c.takers[i]; }
    }
  }

  lemma OneLease(m: Moment, now: Moment, me: nat)
    requires now.takers == m.takers + [me]
    ensures TakenBy(now, me) == TakenBy(m, me) + 1
  {
  }

  // A lease just taken is the only one held.
  lemma TookOne(was: Moment, now: Moment, me: nat, key: string, ranges: seq<Range>, answers: Answers, since: nat,
                mapping: nat, page: nat)
    requires page > 0 && Taken(was, now, me, key, ranges, answers, mapping, page) && Settled(was, me, since)
    requires since <= |was.takers|
    requires ranges != [] && !was.diag.poisoned && Granted(answers, |ranges|) == |ranges|
    ensures Holding(now, me, since, |was.takers| + 1) && TakenBy(now, me) == TakenBy(was, me) + 1
    ensures now.takers == was.takers + [me]
    ensures now.books.active == was.books.active[|was.takers| + 1 := ActiveLease(key, ranges)]
  {
    hide TouchedBytes;
    OneLease(was, now, me);
    forall id | since < id <= |now.takers| && now.takers[id - 1] == me && id != |was.takers| + 1
      ensures id in now.returned
    {
      assert was.takers[id - 1] == now.takers[id - 1];
    }
  }

  lemma TookNone(was: Moment, now: Moment, me: nat, key: string, ranges: seq<Range>, answers: Answers, mapping: nat,
                 page: nat)
    requires page > 0 && Taken(was, now, me, key, ranges, answers, mapping, page)
    requires ranges == [] || was.diag.poisoned || Granted(answers, |ranges|) < |ranges|
    ensures now.books == was.books && now.takers == was.takers && now.returned == was.returned
    ensures ranges == [] || was.diag.poisoned ==> now == was
    ensures forall since | Settled(was, me, since) :: Settled(now, me, since)
    ensures TakenBy(now, me) == TakenBy(was, me)
  {
    hide TouchedBytes;
  }

  // Once it is given back, everything is.
  lemma GaveIt(was: Moment, now: Moment, me: nat, since: nat, mine: nat, answers: Answers, mapping: nat, page: nat)
    requires page > 0 && Holding(was, me, since, mine) && Given(was, now, mine, true, answers, mapping, page)
    ensures Settled(now, me, since) && TakenBy(now, me) == TakenBy(was, me) && now.takers == was.takers
    ensures now.books.active == was.books.active - {mine}
  {
    hide TouchedBytes, GivesBack, RegionOf;
    assert now.returned == was.returned + [mine];
  }

  // ---- Other contexts at work ----

  // They do not hold my lease, so they do not release it.
  method Elsewhere(c: Coordinator, ops: seq<Op>, mine: Option<nat>, ghost me: nat)
    requires c.Valid() && OpsOk(ops, c.mapping, me)
    modifies c
    ensures c.Valid() && Later(old(c.Now()), c.Now()) && Spared(old(c.Now()), c.Now(), me, mine)
    ensures AllGrantedIn(ops) ==> NothingRefused(old(c.Now()), c.Now())
    ensures ops == [] ==> c.Now() == old(c.Now())
  {
    hide Coordinator.Valid, Coordinator.Now, OpWithin, Follows, AllGranted, Spared, Later, Sound;
    ghost var first := c.Now();
    Unmoved(first);
    SparesItself(first, me, mine);
    for i := 0 to |ops|
      invariant c.Valid() && Later(first, c.Now()) && Spared(first, c.Now(), me, mine)
      invariant AllGrantedIn(ops) ==> NothingRefused(first, c.Now())
      invariant i == 0 ==> c.Now() == first
    {
      if !(ops[i].Give? && mine == Some(ops[i].id)) {
        ghost var was := c.Now();
        LeasesOf(c);
        Operate(c, ops[i]);
        StepLater(ops[i], was, c.Now(), c.mapping, c.page);
        StepSpares(ops[i], was, c.Now(), c.mapping, c.page, me, mine);
        LaterStill(first, was, c.Now());
        SparedStill(first, was, c.Now(), me, mine);
      }
    }
  }

  lemma SparesItself(m: Moment, me: nat, mine: Option<nat>)
    ensures Spared(m, m, me, mine)
  {
  }

  lemma LeasesOf(c: Coordinator)
    requires c.Valid()
    ensures c.page > 0 && c.nextId == |c.Now().takers| + 1
    ensures LeasesOk(c.Now().books.active, c.Now().takers, c.Now().returned)
    ensures var d := c.Now().diag;
      && d.acquired == |c.takers| && d.released == |c.returned| && d.acquired == d.released + |c.active|
    ensures c.Now().diag.poisoned <==> c.Now().diag.dontNeedFailures > 0 || c.Now().diag.prematureReleases > 0
  {
  }

  // ---- A phase ----

  // Take a lease, as one step.
  method TakeLease(c: Coordinator, key: string, ranges: seq<Range>, answers: Answers, ghost me: nat, ghost since: nat)
    returns (r: Result<nat, Failure>)
    requires c.Valid() && AllWithin(ranges, c.mapping) && Settled(c.Now(), me, since) && since <= |c.Now().takers|
    modifies c
    ensures c.Valid() && Later(old(c.Now()), c.Now())
    ensures r.Ok? <==> ranges != [] && !old(c.diag).poisoned && forall n | 0 <= n < |ranges| :: answers(n)
    ensures r.Err? ==>
      Settled(c.Now(), me, since) && TakenBy(c.Now(), me) == TakenBy(old(c.Now()), me) && c.active == old(c.active)
    ensures r.Err? ==> Explains(r.error, ranges, answers) && (r.error == Poisoned ==> c.diag.poisoned)
    ensures r.Ok? ==> Holding(c.Now(), me, since, r.value) && TakenBy(c.Now(), me) == TakenBy(old(c.Now()), me) + 1
    ensures r.Ok? ==> r.value !in old(c.active) && c.active == old(c.active)[r.value := ActiveLease(key, ranges)]
    ensures c.takers == old(c.takers) + if r.Ok? then [me] else []
    ensures (forall n: nat :: answers(n)) ==> NothingRefused(old(c.Now()), c.Now())
  {
    hide Coordinator.Valid, Settled, Holding, TakenBy, Taken, Later;
    ghost var was := c.Now();
    LeasesOf(c);
    FreshId(was.books.active, was.takers, was.returned);
    r := c.Acquire(key, ranges, answers, me);
    StepLater(Take(me, key, ranges, answers), was, c.Now(), c.mapping, c.page);
    if r.Err? {
      TookNone(was, c.Now(), me, key, ranges, answers, c.mapping, c.page);
    } else {
      TookOne(was, c.Now(), me, key, ranges, answers, since, c.mapping, c.page);
    }
  }

  // Take a lease for a phase, other contexts running before it and after it.
  method BeginPhase(c: Coordinator, world: World, key: string, ranges: seq<Range>, step: nat, ghost me: nat,
                    ghost since: nat)
    returns (r: Result<Lease, Failure>)
    requires c.Valid() && AllWithin(ranges, c.mapping) && WorldOk(world, c.mapping, me)
    requires Settled(c.Now(), me, since) && since <= |c.Now().takers|
    modifies c
    ensures c.Valid() && Later(old(c.Now()), c.Now())
    ensures r.Err? ==> Settled(c.Now(), me, since) && TakenBy(c.Now(), me) == TakenBy(old(c.Now()), me)
    ensures r.Ok? ==>
      Held(r.value, c, me, since) && fresh(r.value) && TakenBy(c.Now(), me) == TakenBy(old(c.Now()), me) + 1
    ensures r.Ok? ==> r.value.owner == c && ranges != []
    ensures r.Ok? ==> r.value.id in c.active && c.active[r.value.id] == ActiveLease(key, ranges)
    ensures r.Err? ==> Explains(r.error, ranges, world.answers(step)) && (r.error == Poisoned ==> c.Now().diag.poisoned)
    ensures Granting(world) ==>
      NothingRefused(old(c.Now()), c.Now()) && (r.Ok? <==> ranges != [] && !old(c.Now()).diag.poisoned)
    ensures Undisturbed(world) ==> c.Now().takers == old(c.Now()).takers + if r.Ok? then [me] else []
    ensures Undisturbed(world) && r.Err? ==> c.Now().books.active == old(c.Now()).books.active
    ensures Undisturbed(world) && r.Ok? ==>
      && r.value.id !in old(c.Now()).books.active
      && c.Now().books.active == old(c.Now()).books.active[r.value.id := ActiveLease(key, ranges)]
  {
    hide Coordinator.Valid, Settled, Holding, TakenBy, OpsOk, Spared, Later, AllGrantedIn, LeasesOk;
    ghost var first := c.Now();
    LeasesOf(c);
    assert OpsOk(world.others(step), c.mapping, me) && OpsOk(world.others(step + 1), c.mapping, me);
    Elsewhere(c, world.others(step), None, me);
    ghost var before := c.Now();
    StillSettled(first, before, me, since);
    SparedCount(first, before, me, None);
    LeasesOf(c);
    LaterSize(first, before, since);
    var id := TakeLease(c, key, ranges, world.answers(step), me, since);
    ghost var after := c.Now();
    LaterStill(first, before, after);
    if id.Err? { return Err(id.error); }
    HoldingActive(after, me, since, id.value);
    var lease := new Lease(c, id.value, key);
    Elsewhere(c, world.others(step + 1), Some(id.value), me);
    LaterStill(first, after, c.Now());
    StillHolding(after, c.Now(), me, since, id.value);
    SparedCount(after, c.Now(), me, Some(id.value));
    r := Ok(lease);
  }

  lemma HoldingActive(m: Moment, me: nat, since: nat, mine: nat)
    requires Holding(m, me, since, mine)
    ensures mine in m.books.active
  {
  }

  // A lease this request holds, the only one since it began.
  ghost predicate Held(lease: Lease, c: Coordinator, me: nat, since: nat)
    reads lease, c
  {
    && lease.owner == c && lease.held && !lease.complete
    && Holding(c.Now(), me, since, lease.id) && c.active[lease.id].key == lease.key
  }

  // Why a lease may be denied.
  ghost predicate Explains(failure: Failure, ranges: seq<Range>, answers: Answers) {
    match failure
    case EmptyLease => ranges == []
    case WillNeedFailed => exists n: nat :: !answers(n)
    case Poisoned => true
    case _ => false
  }

  lemma SparedCount(was: Moment, now: Moment, me: nat, mine: Option<nat>)
    requires Spared(was, now, me, mine)
    ensures TakenBy(now, me) == TakenBy(was, me)
    ensures mine.Some? && mine.value in was.books.active ==>
      mine.value in now.books.active && now.books.active[mine.value] == was.books.active[mine.value]
  {
  }

  lemma LaterSize(was: Moment, now: Moment, since: nat)
    requires Later(was, now) && since <= |was.takers|
    ensures since <= |now.takers| && now.diag.prematureReleases == was.diag.prematureReleases
  {
  }

  // What ends a phase early: a step that throws, or the coordinator.
  datatype Interrupt = Denied(failure: Failure) | Fault(step: nat)

  // The phase has computed, or thrown: give its lease back, by hand or by going out of scope.
  method EndPhase(lease: Lease, world: World, step: nat, ghost me: nat, ghost since: nat)
    returns (stop: Option<Interrupt>)
    requires lease.owner.Valid() && Held(lease, lease.owner, me, since)
    modifies lease, lease.owner
    ensures lease.owner.Valid() && Later(old(lease.owner.Now()), lease.owner.Now())
    ensures Settled(lease.owner.Now(), me, since)
    ensures TakenBy(lease.owner.Now(), me) == TakenBy(old(lease.owner.Now()), me)
    ensures lease.owner.Now().books.active == old(lease.owner.Now()).books.active - {lease.id}
    ensures lease.owner.Now().takers == old(lease.owner.Now()).takers
    ensures world.faults(step) ==> stop == Some(Fault(step))
    ensures !world.faults(step) && stop.Some? ==>
      stop == Some(Denied(DontNeedFailed)) && exists n: nat :: !world.answers(step)(n)
    ensures Granting(world) ==>
      NothingRefused(old(lease.owner.Now()), lease.owner.Now()) && (stop == None <==> !world.faults(step))
  {
    hide Coordinator.Valid, Settled, Holding, TakenBy, Given, Granted, Later, AllGrantedIn;
    ghost var c, first := lease.owner, lease.owner.Now();
    LeasesOf(c);
    HeldActive(lease, me, since);
    if world.faults(step) {
      // The backend is synchronous: by the time it throws, the pages are safe to give back.
      lease.MarkComputeComplete();
      lease.Drop(world.answers(step));
      GaveIt(first, c.Now(), me, since, lease.id, world.answers(step), c.mapping, c.page);
      StepLater(Give(lease.id, true, world.answers(step)), first, c.Now(), c.mapping, c.page);
      return Some(Fault(step));
    }
    lease.MarkComputeComplete();
    var failure := lease.Release(world.answers(step));
    ghost var back := c.Now();
    GaveIt(first, back, me, since, lease.id, world.answers(step), c.mapping, c.page);
    StepLater(Give(lease.id, true, world.answers(step)), first, back, c.mapping, c.page);
    // The destructor runs on a lease that no longer holds anything.
    lease.Drop(world.answers(step));
    stop := if failure.Some? then Some(Denied(failure.value)) else None;
  }

  lemma HeldActive(lease: Lease, me: nat, since: nat)
    requires Held(lease, lease.owner, me, since)
    ensures lease.id in lease.owner.active && lease.owner.active[lease.id].key == lease.key && lease.held
    ensures Holding(lease.owner.Now(), me, since, lease.id)
  {
  }
}
