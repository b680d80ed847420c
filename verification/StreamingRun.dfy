// A streaming request: every sub-batch is embedded, run through its groups and pooled,
// a lease held over each phase. What it writes is what each text gets alone.
module StreamingRun {
  import opened Prelude
  import opened Ranges
  import opened Residency
  import opened Leases
  import opened StreamingModel
  import opened StreamingContext
  import opened Batch
  import opened Attention
  import opened Encoder
  import opened Embedder
  import GqaAttention
  import Forward = StreamingForward
  import Net = Architectures
  import Slots
  import SlotRuns
  import Stack = StreamingStack

  // ---- Steps of a request ----

  // Two steps a phase, and the final one.
  function StepCount(m: Loaded): nat { 2 * PhaseCount(m) + 1 }

  ghost predicate NoFaults(world: World, from: nat, to: nat) { forall s | from <= s < to :: !world.faults(s) }

  // ---- What a request may count on from moment to moment ----

  ghost predicate Progress(world: World, was: Moment, now: Moment, me: nat, since: nat) {
    && Later(was, now) && Settled(now, me, since) && since <= |now.takers|
    && (Granting(world) ==> NothingRefused(was, now))
    && (Undisturbed(world) ==>
          && now.books.active == was.books.active
          && |now.takers| - |was.takers| == TakenBy(now, me) - TakenBy(was, me))
  }

  lemma ProgressStill(world: World, a: Moment, b: Moment, c: Moment, me: nat, since: nat)
    requires Progress(world, a, b, me, since) && Progress(world, b, c, me, since)
    ensures Progress(world, a, c, me, since)
  {
    hide Granting, Undisturbed, Settled;
    LaterStill(a, b, c);
  }

  lemma NoProgress(world: World, m: Moment, me: nat, since: nat)
    requires Settled(m, me, since) && since <= |m.takers|
    ensures Progress(world, m, m, me, since)
  {
  }

  // A request is stopped for a reason; `empty` tells whether a lease it asks for has no pages.
  ghost predicate Because(why: Interrupt, world: World, empty: bool, now: Moment) {
    match why
    case Fault(s) => world.faults(s)
    case Denied(failure) =>
      match failure
      case EmptyLease => empty
      case Poisoned => now.diag.poisoned
      case WillNeedFailed => SomeAdviceRefused(world)
      case DontNeedFailed => SomeAdviceRefused(world)
      case _ => false
  }

  ghost predicate SomeAdviceRefused(world: World) { exists k: nat, n: nat :: !world.answers(k)(n) }

  lemma DeniedBecause(failure: Failure, world: World, ranges: seq<Range>, step: nat, now: Moment)
    requires Explains(failure, ranges, world.answers(step)) && (failure == Poisoned ==> now.diag.poisoned)
    ensures Because(Denied(failure), world, ranges == [], now)
  {
  }

  // Begin and end of a phase, and what ran in between, put together.
  lemma PhaseProgress(world: World, was: Moment, mid: Moment, now: Moment, me: nat, since: nat, id: nat,
                      lease: Ledger.ActiveLease)
    requires Later(was, mid) && Later(mid, now) && Settled(now, me, since) && since <= |was.takers|
    requires Granting(world) ==> NothingRefused(was, mid) && NothingRefused(mid, now)
    requires Undisturbed(world) ==> id !in was.books.active && mid.books.active == was.books.active[id := lease]
    requires now.books.active == mid.books.active - {id} && now.takers == mid.takers
    requires Undisturbed(world) ==> mid.takers == was.takers + [me]
    ensures Progress(world, was, now, me, since)
  {
    hide Settled, Granting;
    LaterStill(was, mid, now);
    LaterSize(was, now, since);
    if Undisturbed(world) { assert was.books.active[id := lease] - {id} == was.books.active; }
  }

  lemma DeniedProgress(world: World, was: Moment, now: Moment, me: nat, since: nat)
    requires Later(was, now) && Settled(now, me, since) && since <= |was.takers|
    requires Granting(world) ==> NothingRefused(was, now)
    requires Undisturbed(world) ==> now.books.active == was.books.active && now.takers == was.takers
    ensures Progress(world, was, now, me, since)
  {
    LaterSize(was, now, since);
  }

  // ---- One layer ----

  // A group, its pages leased while it computes.
  method LeasedGroup(c: Coordinator, world: World, key: string, ranges: seq<Range>, sc: Context,
                     units: seq<SlotRuns.Unit<Acts>>, runs: seq<nat>, groups: seq<Slots.GroupSlots>, g: nat, begin: nat,
                     step: nat, ghost env: SlotRuns.Env<Acts>, ghost m: Loaded, ghost l: nat, ghost me: nat,
                     ghost since: nat)
    returns (stop: Option<Interrupt>)
    requires c.Valid() && WorldOk(world, c.mapping, me) && AllWithin(ranges, c.mapping) && sc.residency == c
    requires Reads(Request(m, c.mapping, c.page, me, since), Group(l, g), ranges)
    requires Settled(c.Now(), me, since) && since <= |c.Now().takers|
    requires Slots.Total(runs) == |units| && Slots.GroupsFor(SlotRuns.SlotsOf(units), runs, Net.RESIDUAL, groups)
    requires SlotRuns.Fit(units, |env|) && Net.RESIDUAL < |env| && g < |runs| && begin == Slots.Start(runs, g)
    requires SlotRuns.InStep(units, runs, Net.RESIDUAL, env, g, sc.slots.entries) && |sc.slots.entries| == |env|
    requires SlotRuns.RunUnits(units, 0, |units|, env).Ok?
    modifies c, sc`computes, sc.slots
    ensures c.Valid() && Progress(world, old(c.Now()), c.Now(), me, since)
    ensures stop == None ==> TakenBy(c.Now(), me) == TakenBy(old(c.Now()), me) + 1
    ensures stop == None ==> !world.faults(step) && !world.faults(step + 1) && ranges != []
    ensures stop == None ==>
      && |sc.slots.entries| == |env| && Slots.Start(runs, g + 1) == begin + runs[g]
      && SlotRuns.InStep(units, runs, Net.RESIDUAL, env, g + 1, sc.slots.entries)
    ensures Ran(old(c.Now()), old(sc.computes), sc.computes, [Group(l, g)], Request(m, c.mapping, c.page, me, since))
    ensures stop == None ==> |sc.computes| == |old(sc.computes)| + 1
    ensures stop.Some? ==> Because(stop.value, world, ranges == [], c.Now())
    ensures (Granting(world) && !old(c.Now()).diag.poisoned && !world.faults(step) && !world.faults(step + 1)
             && ranges != []) ==> stop == None
  {
    hide Coordinator.Valid, Coordinator.Now, Progress, Settled, Held, TakenBy, Granting, Undisturbed, NothingRefused,
      Later, WorldOk, Because, SlotRuns.InStep, SlotRuns.Fit, SlotRuns.RunUnits, Slots.GroupsFor, AllWithin, Ran,
      Covered, Reads;
    ghost var q := Request(m, c.mapping, c.page, me, since);
    RanNothing(c.Now(), sc.computes, [Group(l, g)], q);
    if world.faults(step) {
      NoProgress(world, c.Now(), me, since);
      FaultBecause(world, step, ranges == [], c.Now());
      return Some(Fault(step));
    }
    ghost var was := c.Now();
    var begun := BeginPhase(c, world, key, ranges, step, me, since);
    if begun.Err? {
      DeniedProgress(world, was, c.Now(), me, since);
      DeniedBecause(begun.error, world, ranges, step, c.Now());
      return Some(Denied(begun.error));
    }
    var lease := begun.value;
    ghost var mid := c.Now();
    if !world.faults(step + 1) {
      GeometryOf(c);
      HeldCovers(lease, Group(l, g), q);
      RanOne(was, sc.computes, Compute(Group(l, g), lease.id, mid), q);
      var failure := sc.RunGroup(units, runs, groups, g, begin, env, l, lease.id);
    }
    stop := EndPhase(lease, world, step + 1, me, since);
    PhaseProgress(world, was, mid, c.Now(), me, since, lease.id, Ledger.ActiveLease(key, ranges));
    if stop.Some? { EndedBecause(stop.value, world, step + 1, ranges == [], c.Now()); }
  }

  lemma FaultBecause(world: World, step: nat, empty: bool, now: Moment)
    requires world.faults(step)
    ensures Because(Fault(step), world, empty, now)
  {
  }

  lemma EndedBecause(why: Interrupt, world: World, step: nat, empty: bool, now: Moment)
    requires world.faults(step) ==> why == Fault(step)
    requires !world.faults(step) ==> why == Denied(DontNeedFailed) && exists n: nat :: !world.answers(step)(n)
    ensures Because(why, world, empty, now)
  {
  }

  // Each group of a layer in turn.
  method LeasedLayer(c: Coordinator, world: World, m: Loaded, alg: Net.Algebra<Acts>, l: nat, padded: bool, grid: bool,
                     sc: Context, start: nat, ghost x: Acts, ghost me: nat, ghost since: nat)
    returns (stop: Option<Interrupt>, next: nat)
    requires c.Valid() && WorldOk(world, c.mapping, me) && sc.residency == c
    requires l < |m.layers| && LayerPlanOk(m.forward.family, m.layers[l], c.mapping)
    requires Settled(c.Now(), me, since) && since <= |c.Now().takers|
    requires |sc.slots.entries| == Net.SlotCount(m.forward.family) && sc.slots.entries[Net.RESIDUAL] == Some(x)
    modifies c, sc`computes, sc.slots
    ensures c.Valid() && Progress(world, old(c.Now()), c.Now(), me, since)
    ensures stop == None ==>
      && TakenBy(c.Now(), me) == TakenBy(old(c.Now()), me) + |m.layers[l].runs|
      && next == start + 2 * |m.layers[l].runs|
    ensures stop == None ==> NoFaults(world, start, next) && Leasable(m.layers[l])
    ensures stop == None ==>
      && |sc.slots.entries| == Net.SlotCount(m.forward.family)
      && sc.slots.entries[Net.RESIDUAL]
         == Some(Net.Block(alg, m.forward.family, x, l, Net.EagerGiven(m.forward.family, padded, grid)))
    ensures Ran(old(c.Now()), old(sc.computes), sc.computes, LayerWorks(l, |m.layers[l].runs|),
                Request(m, c.mapping, c.page, me, since))
    ensures stop == None ==> |sc.computes| == |old(sc.computes)| + |m.layers[l].runs|
    ensures stop.Some? ==> Because(stop.value, world, !Leasable(m.layers[l]), c.Now())
    ensures (Granting(world) && !old(c.Now()).diag.poisoned && NoFaults(world, start, start + 2 * |m.layers[l].runs|)
             && Leasable(m.layers[l])) ==> stop == None
  {
    hide Coordinator.Valid, Coordinator.Now, Progress, Settled, TakenBy, Granting, Undisturbed, NothingRefused, Later,
      WorldOk, Because, SlotRuns.InStep, SlotRuns.Fit, SlotRuns.RunUnits, Slots.GroupsFor, Stack.GroupedUnits,
      Net.Block, Net.EagerGiven, AllWithin, Stack.LayerCut, Ran, LayerWorks, Reads, LayerPlanOk, NoFaults, Slots.Total;
    var f, p := m.forward.family, m.layers[l];
    ghost var first, log, env := c.Now(), sc.computes, sc.slots.entries;
    ghost var q := Request(m, c.mapping, c.page, me, since);
    LeasesOf(c);
    LayerStart(f, p, c.mapping, alg, l, padded, grid, env, x);
    NoFaultsYet(world, start);
    var units := Stack.GroupedUnits(alg, f, l, p.runs, padded, grid);
    NoProgress(world, first, me, since);
    var begin := 0;
    next := start;
    Slots.EmptyTotal(p.runs);
    RanNothing(first, log, LayerWorks(l, 0), q);
    RanNothing(first, log, LayerWorks(l, |p.runs|), q);
    for g := 0 to |p.runs|
      invariant c.Valid() && Progress(world, first, c.Now(), me, since)
      invariant TakenBy(c.Now(), me) == TakenBy(first, me) + g && next == start + 2 * g
      invariant NoFaults(world, start, next) && forall g' | 0 <= g' < g :: p.ranges[g'] != []
      invariant Ran(first, log, sc.computes, LayerWorks(l, g), q) && |sc.computes| == |log| + g
      invariant begin == Slots.Start(p.runs, g) && |sc.slots.entries| == Net.SlotCount(f)
      invariant SlotRuns.InStep(units, p.runs, Net.RESIDUAL, env, g, sc.slots.entries)
    {
      ghost var was, mid := c.Now(), sc.computes;
      ProgressSettles(world, first, was, me, since);
      SamePoison(c, world, first, was, me, since);
      GroupReads(q, l, g);
      NoFaultsNext(world, start, next, next + 2, start + 2 * |p.runs|);
      NoFaultsTwo(world, next);
      stop := LeasedGroup(c, world, p.keys[g], p.ranges[g], sc, units, p.runs, p.groups, g, begin, next, env, m, l, me,
                          since);
      GroupRan(first, was, log, mid, sc.computes, l, g, |p.runs|, q);
      ProgressStill(world, first, was, c.Now(), me, since);
      if stop.Some? {
        BecauseStill(stop.value, world, p.ranges[g] == [], !Leasable(p), c.Now());
        return;
      }
      begin, next := begin + p.runs[g], next + 2;
    }
    SlotRuns.AtEnd(units, p.runs, Net.RESIDUAL, env, sc.slots.entries);
    stop := None;
  }

  lemma GroupRan(first: Moment, was: Moment, log: seq<Compute>, mid: seq<Compute>, now: seq<Compute>, l: nat, g: nat,
                 n: nat, q: Request)
    requires g < n && Ran(first, log, mid, LayerWorks(l, g), q) && |mid| == |log| + g && Later(first, was)
    requires Ran(was, mid, now, [Group(l, g)], q)
    ensures Ran(first, log, now, LayerWorks(l, g + 1), q) && Ran(first, log, now, LayerWorks(l, n), q)
  {
    hide Ran, Later, LayerWorks;
    RanStill(first, was, log, mid, now, LayerWorks(l, g), [Group(l, g)], q);
    assert LayerWorks(l, g) + [Group(l, g)] == LayerWorks(l, g + 1);
    RanPart(first, log, now, LayerWorks(l, g + 1), LayerWorks(l, n), q);
  }

  // A layer about to run: its units fit the slots, will all run, and make the block.
  lemma LayerStart(f: Net.Family, p: LayerPlan, mapping: nat, alg: Net.Algebra<Acts>, l: nat, padded: bool, grid: bool,
                   env: SlotRuns.Env<Acts>, x: Acts)
    requires LayerPlanOk(f, p, mapping) && |env| == Net.SlotCount(f) && env[Net.RESIDUAL] == Some(x)
    ensures |p.keys| == |p.ranges| == |p.runs| && Slots.Total(p.runs) <= Net.UnitCount(f)
    ensures var units := Stack.GroupedUnits(alg, f, l, p.runs, padded, grid);
      && SlotRuns.Fit(units, |env|) && Slots.Total(p.runs) == |units|
      && Slots.GroupsFor(SlotRuns.SlotsOf(units), p.runs, Net.RESIDUAL, p.groups)
      && SlotRuns.InStep(units, p.runs, Net.RESIDUAL, env, 0, env)
      && var r := SlotRuns.RunUnits(units, 0, |units|, env);
        r.Ok? && r.value[Net.RESIDUAL] == Some(Net.Block(alg, f, x, l, Net.EagerGiven(f, padded, grid)))
  {
    hide SlotRuns.InStep, SlotRuns.Fit, SlotRuns.RunUnits, Slots.GroupsFor, Stack.GroupedUnits, Net.Block,
      Net.EagerGiven, Stack.LayerCut;
    CutOf(f, p, mapping);
    Stack.LayerReady(alg, f, l, p.runs, p.groups, padded, grid);
    Stack.LayerMakes(alg, f, l, p.runs, padded, grid, env, x);
    SlotRuns.AtStart(Stack.GroupedUnits(alg, f, l, p.runs, padded, grid), p.runs, Net.RESIDUAL, env);
  }

  lemma BecauseStill(why: Interrupt, world: World, empty: bool, emptyToo: bool, now: Moment)
    requires Because(why, world, empty, now) && (empty ==> emptyToo)
    ensures Because(why, world, emptyToo, now)
  {
  }

  // Where nothing is refused, nothing gets poisoned.
  lemma SamePoison(c: Coordinator, world: World, was: Moment, now: Moment, me: nat, since: nat)
    requires c.Valid() && c.Now() == now && Progress(world, was, now, me, since)
    requires was.diag.poisoned <==> was.diag.dontNeedFailures > 0 || was.diag.prematureReleases > 0
    ensures Granting(world) ==> (now.diag.poisoned <==> was.diag.poisoned)
  {
    LeasesOf(c);
  }

  lemma NoFaultsYet(world: World, at: nat)
    ensures NoFaults(world, at, at)
  {
  }

  lemma NoFaultsTwo(world: World, at: nat)
    ensures NoFaults(world, at, at + 2) <==> !world.faults(at) && !world.faults(at + 1)
  {
  }

  // What a group's lease covers.
  lemma GroupReads(q: Request, l: nat, g: nat)
    requires q.page > 0 && l < |q.m.layers| && LayerPlanOk(q.m.forward.family, q.m.layers[l], q.mapping)
    requires g < |q.m.layers[l].runs|
    ensures AllWithin(q.m.layers[l].ranges[g], q.mapping) && Reads(q, Group(l, g), q.m.layers[l].ranges[g])
  {
    hide AllWithin;
  }

  lemma NoFaultsNext(world: World, a: nat, b: nat, c: nat, d: nat)
    requires a <= b <= c <= d
    ensures NoFaults(world, a, b) && NoFaults(world, b, c) ==> NoFaults(world, a, c)
    ensures NoFaults(world, a, d) ==> NoFaults(world, b, c)
  {
  }

  lemma ProgressSettles(world: World, was: Moment, now: Moment, me: nat, since: nat)
    requires Progress(world, was, now, me, since)
    ensures Later(was, now) && Settled(now, me, since) && since <= |now.takers|
  {
  }

  // ---- One sub-batch ----

  datatype Stop =
    | CannotPlan(error: BatchError)
    | BadBatch(error: BatchError)
    | BadRows(range: RangeError)
    | Interrupted(why: Interrupt)

  // Every id asked for is a row of the token table, and that row is in the mapping.
  ghost predicate RowsReady(m: Loaded, ids: seq<int>, mapping: nat) {
    && RowsValid(m.tokenOffset, m.tokenBytes, m.rowStride, m.rowCount, ids)
    && AllWithin(Ranges.Rows(m.tokenOffset, m.rowStride, ids), mapping)
  }

  ghost predicate StoppedBy(stop: Stop, world: World, m: Loaded, ids: seq<int>, mapping: nat, now: Moment) {
    match stop
    case Interrupted(why) => Because(why, world, !AllLeasable(m), now)
    case BadRows(_) => !RowsReady(m, ids, mapping)
    case _ => false
  }

  // Look the tokens up, the pages of their rows leased meanwhile.
  method EmbedPhase(c: Coordinator, world: World, m: Loaded, alg: Net.Algebra<Acts>, ids: seq<int>,
                    sc: Context, step: nat, ghost me: nat, ghost since: nat)
    returns (stop: Option<Stop>)
    requires c.Valid() && WorldOk(world, c.mapping, me) && Settled(c.Now(), me, since) && since <= |c.Now().takers|
    requires sc.residency == c
    requires |sc.slots.entries| == Net.SlotCount(m.forward.family)
    modifies c, sc`computes, sc.slots
    ensures c.Valid() && Progress(world, old(c.Now()), c.Now(), me, since)
    ensures stop == None ==> TakenBy(c.Now(), me) == TakenBy(old(c.Now()), me) + 1
    ensures stop == None ==> !world.faults(step) && !world.faults(step + 1) && RowsReady(m, ids, c.mapping)
    ensures stop == None ==>
      && |sc.slots.entries| == Net.SlotCount(m.forward.family)
      && sc.slots.entries[Net.RESIDUAL]
         == Some(Net.EmbeddingPhase(alg, m.forward.family, Net.EmbeddingGiven(m.forward.family)))
    ensures Ran(old(c.Now()), old(sc.computes), sc.computes, [TokenRows(ids)], Request(m, c.mapping, c.page, me, since))
    ensures stop == None ==> |sc.computes| == |old(sc.computes)| + 1
    ensures stop.Some? ==> StoppedBy(stop.value, world, m, ids, c.mapping, c.Now())
    ensures (Granting(world) && !old(c.Now()).diag.poisoned && !world.faults(step) && !world.faults(step + 1)
             && RowsReady(m, ids, c.mapping))
      ==> stop == None
  {
    hide Coordinator.Valid, Coordinator.Now, Progress, Settled, Held, TakenBy, Granting, Undisturbed, NothingRefused,
      Later, WorldOk, Because, AllWithin, RowsValid, Coalesced, IsPowerOfTwo, AllLeasable, Ran, Covered;
    ghost var was, q := c.Now(), Request(m, c.mapping, c.page, me, since);
    RanNothing(was, sc.computes, [TokenRows(ids)], q);
    if world.faults(step) {
      NoProgress(world, was, me, since);
      FaultBecause(world, step, !AllLeasable(m), was);
      return Some(Interrupted(Fault(step)));
    }
    GeometryOf(c);
    var rows := TokenRowRanges(m.tokenOffset, m.tokenBytes, m.rowStride, m.rowCount, ids, c.mapping, c.page);
    if rows.Err? {
      NoProgress(world, was, me, since);
      return Some(BadRows(rows.error));
    }
    RowsAsked(m, ids, c.mapping);
    SomeRows(rows.value, Ranges.Rows(m.tokenOffset, m.rowStride, ids), c.mapping, c.page);
    var begun := BeginPhase(c, world, "token", rows.value, step, me, since);
    if begun.Err? {
      DeniedProgress(world, was, c.Now(), me, since);
      DeniedBecause(begun.error, world, rows.value, step, c.Now());
      BecauseStill(Denied(begun.error), world, false, !AllLeasable(m), c.Now());
      return Some(Interrupted(Denied(begun.error)));
    }
    var lease := begun.value;
    ghost var mid := c.Now();
    if !world.faults(step + 1) {
      HeldCovers(lease, TokenRows(ids), q);
      RanOne(was, sc.computes, Compute(TokenRows(ids), lease.id, mid), q);
      sc.RunEmbedding(alg, m.forward.family, ids, lease.id);
    }
    var ended := EndPhase(lease, world, step + 1, me, since);
    PhaseProgress(world, was, mid, c.Now(), me, since, lease.id, Ledger.ActiveLease("token", rows.value));
    if ended.Some? {
      EndedBecause(ended.value, world, step + 1, !AllLeasable(m), c.Now());
      return Some(Interrupted(ended.value));
    }
    stop := None;
  }

  lemma GeometryOf(c: Coordinator)
    requires c.Valid()
    ensures Geometry(c.mapping, c.page) && c.mapping <= SIZE_MAX
  {
  }

  lemma RowsAsked(m: Loaded, ids: seq<int>, mapping: nat)
    requires RowsReady(m, ids, mapping)
    ensures ids != [] && forall i | 0 <= i < |ids| :: ids[i] >= 0
  {
  }

  // The residual slot holds the activation after n layers.
  ghost predicate After(m: Loaded, exp: Exponential, in': GraphInputs, ids: seq<seq<int>>, n: nat,
                        entries: SlotRuns.Env<Acts>, x: Acts) {
    && |entries| == Net.SlotCount(m.forward.family) && entries[Net.RESIDUAL] == Some(x)
    && Forward.Activation(exp, Forward.ArchOf(m.forward), in', ids, n, x)
  }

  // Layer l: every sentence then holds what one layer more makes of it alone.
  method NextLayer(c: Coordinator, world: World, m: Loaded, exp: Exponential, in': GraphInputs, padded: bool,
                   grid: bool, l: nat, sc: Context, start: nat, ghost ids: seq<seq<int>>,
                   ghost x: Acts, ghost me: nat, ghost since: nat)
    returns (stop: Option<Interrupt>, next: nat, ghost y: Acts)
    requires c.Valid() && WorldOk(world, c.mapping, me) && LoadedOk(m, c.mapping) && l < |m.layers|
    requires sc.residency == c
    requires Settled(c.Now(), me, since) && since <= |c.Now().takers|
    requires Describes(Forward.ArchOf(m.forward), in', ids) && ids != []
    requires Forward.GivenMatches(in', Net.EagerGiven(m.forward.family, padded, grid))
    requires After(m, exp, in', ids, l, sc.slots.entries, x)
    modifies c, sc`computes, sc.slots
    ensures c.Valid() && Progress(world, old(c.Now()), c.Now(), me, since)
    ensures stop == None ==>
      && TakenBy(c.Now(), me) == TakenBy(old(c.Now()), me) + |m.layers[l].runs|
      && next == start + 2 * |m.layers[l].runs|
      && NoFaults(world, start, next) && Leasable(m.layers[l])
    ensures stop == None ==> After(m, exp, in', ids, l + 1, sc.slots.entries, y)
    ensures Ran(old(c.Now()), old(sc.computes), sc.computes, LayerWorks(l, |m.layers[l].runs|),
                Request(m, c.mapping, c.page, me, since))
    ensures stop == None ==> |sc.computes| == |old(sc.computes)| + |m.layers[l].runs|
    ensures stop.Some? ==> Because(stop.value, world, !AllLeasable(m), c.Now())
    ensures (Granting(world) && !old(c.Now()).diag.poisoned && NoFaults(world, start, start + 2 * |m.layers[l].runs|)
             && Leasable(m.layers[l]))
      ==> stop == None
  {
    hide Coordinator.Valid, Coordinator.Now, Progress, Settled, TakenBy, Granting, Undisturbed, NothingRefused, Later,
      WorldOk, Because, Describes, Forward.GivenMatches, Forward.Activation, Forward.Lifted, Forward.ArchOf, Net.Block,
      Net.EagerGiven, LayerPlanOk, Leasable, NoFaults, Ran, LayerWorks;
    var f, alg := m.forward.family, Forward.Lifted(exp, m.forward, in');
    y := Net.Block(alg, f, x, l, Net.EagerGiven(f, padded, grid));
    stop, next := LeasedLayer(c, world, m, alg, l, padded, grid, sc, start, x, me, since);
    if stop.Some? {
      BecauseStill(stop.value, world, !Leasable(m.layers[l]), !AllLeasable(m), c.Now());
      return;
    }
    OnlyLooksBack(f, padded, grid);
    Forward.ActivationNext(exp, m.forward, in', ids, l, x, Net.EagerGiven(f, padded, grid));
  }

  // All layers in turn.
  method LeasedLayers(c: Coordinator, world: World, m: Loaded, exp: Exponential, in': GraphInputs, padded: bool,
                      grid: bool, sc: Context, start: nat, ghost ids: seq<seq<int>>,
                      ghost embedded: Acts, ghost me: nat, ghost since: nat)
    returns (stop: Option<Interrupt>, next: nat, ghost x: Acts)
    requires c.Valid() && WorldOk(world, c.mapping, me) && LoadedOk(m, c.mapping)
    requires sc.residency == c
    requires Settled(c.Now(), me, since) && since <= |c.Now().takers|
    requires Describes(Forward.ArchOf(m.forward), in', ids) && ids != []
    requires Forward.GivenMatches(in', Net.EagerGiven(m.forward.family, padded, grid))
    requires After(m, exp, in', ids, 0, sc.slots.entries, embedded)
    modifies c, sc`computes, sc.slots
    ensures c.Valid() && Progress(world, old(c.Now()), c.Now(), me, since)
    ensures stop == None ==>
      && TakenBy(c.Now(), me) == TakenBy(old(c.Now()), me) + GroupCount(m.layers)
      && next == start + 2 * GroupCount(m.layers)
      && NoFaults(world, start, next) && AllLeasable(m)
    ensures stop == None ==> After(m, exp, in', ids, |m.layers|, sc.slots.entries, x)
    ensures Ran(old(c.Now()), old(sc.computes), sc.computes, LayersWorks(m.layers, |m.layers|),
                Request(m, c.mapping, c.page, me, since))
    ensures stop == None ==> |sc.computes| == |old(sc.computes)| + GroupCount(m.layers)
    ensures stop.Some? ==> Because(stop.value, world, !AllLeasable(m), c.Now())
    ensures (Granting(world) && !old(c.Now()).diag.poisoned && NoFaults(world, start, start + 2 * GroupCount(m.layers))
             && AllLeasable(m)) ==> stop == None
  {
    hide Coordinator.Valid, Coordinator.Now, Progress, Settled, TakenBy, Granting, Undisturbed, NothingRefused, Later,
      WorldOk, Because, Describes, Forward.GivenMatches, Forward.ArchOf, Net.EagerGiven, LoadedOk, Leasable, After,
      NoFaults, GroupCount, Ran, LayersWorks, LayerWorks;
    ghost var first, log, q := c.Now(), sc.computes, Request(m, c.mapping, c.page, me, since);
    RanNothing(first, log, LayersWorks(m.layers, 0), q);
    RanNothing(first, log, LayersWorks(m.layers, |m.layers|), q);
    NoFaultsYet(world, start);
    LeasesOf(c);
    NoProgress(world, first, me, since);
    x, next := embedded, start;
    NoGroupsYet(m.layers);
    for l := 0 to |m.layers|
      invariant c.Valid() && Progress(world, first, c.Now(), me, since)
      invariant TakenBy(c.Now(), me) == TakenBy(first, me) + GroupCount(m.layers[..l])
      invariant next == start + 2 * GroupCount(m.layers[..l])
      invariant NoFaults(world, start, next) && forall l' | 0 <= l' < l :: Leasable(m.layers[l'])
      invariant Ran(first, log, sc.computes, LayersWorks(m.layers, l), q)
      invariant |sc.computes| == |log| + GroupCount(m.layers[..l])
      invariant After(m, exp, in', ids, l, sc.slots.entries, x)
    {
      ghost var was, mid := c.Now(), sc.computes;
      ProgressSettles(world, first, was, me, since);
      SamePoison(c, world, first, was, me, since);
      GroupsGrow(m.layers, l);
      NoFaultsNext(world, start, next, next + 2 * |m.layers[l].runs|, start + 2 * GroupCount(m.layers));
      stop, next, x := NextLayer(c, world, m, exp, in', padded, grid, l, sc, next, ids, x, me, since);
      LayerRan(first, was, log, mid, sc.computes, m.layers, l, q);
      ProgressStill(world, first, was, c.Now(), me, since);
      if stop.Some? { return; }
    }
    assert m.layers[..|m.layers|] == m.layers;
    stop := None;
  }

  lemma LayerRan(first: Moment, was: Moment, log: seq<Compute>, mid: seq<Compute>, now: seq<Compute>,
                 layers: seq<LayerPlan>, l: nat, q: Request)
    requires l < |layers| && Ran(first, log, mid, LayersWorks(layers, l), q) && Later(first, was)
    requires |mid| == |log| + GroupCount(layers[..l]) && Ran(was, mid, now, LayerWorks(l, |layers[l].runs|), q)
    ensures Ran(first, log, now, LayersWorks(layers, l + 1), q)
    ensures Ran(first, log, now, LayersWorks(layers, |layers|), q)
  {
    hide Ran, Later, LayerWorks, GroupCount;
    RanStill(first, was, log, mid, now, LayersWorks(layers, l), LayerWorks(l, |layers[l].runs|), q);
    assert LayersWorks(layers, l + 1) == LayersWorks(layers, l) + LayerWorks(l, |layers[l].runs|);
    LayersGrow(layers, l + 1, |layers|);
    RanPart(first, log, now, LayersWorks(layers, l + 1), LayersWorks(layers, |layers|), q);
  }

  lemma OnlyLooksBack(f: Net.Family, padded: bool, grid: bool)
    ensures var g := Net.EagerGiven(f, padded, grid); f.Bert? ==> g.rope == g.lengths == g.offsets == false
  {
  }

  // Embed, run every layer, pool: one row per sentence, what it gets alone.
  method RunSubbatch(c: Coordinator, world: World, m: Loaded, exp: Exponential, config: Config,
                     batch: MaterializedBatch, sc: Context, start: nat, ghost items: seq<Item>,
                     ghost pad: int, ghost me: nat, ghost since: nat)
    returns (stop: Option<Stop>, next: nat, rows: seq<Vec>)
    requires c.Valid() && WorldOk(world, c.mapping, me) && LoadedOk(m, c.mapping)
    requires sc.residency == c
    requires Settled(c.Now(), me, since) && since <= |c.Now().takers|
    requires Laid(batch, items, pad) && RealRows(items) && ByLength(items)
    requires |sc.slots.entries| == Net.SlotCount(m.forward.family)
    modifies c, sc`computes, sc.slots
    ensures c.Valid() && Progress(world, old(c.Now()), c.Now(), me, since)
    ensures stop == None ==> |sc.slots.entries| == Net.SlotCount(m.forward.family)
    ensures stop == None ==> RowsAlone(exp, Forward.ArchOf(m.forward), config, rows, items)
    ensures stop == None ==>
      TakenBy(c.Now(), me) == TakenBy(old(c.Now()), me) + PhaseCount(m) && next == start + StepCount(m)
    ensures stop == None ==> NoFaults(world, start, next) && AllLeasable(m) && RowsReady(m, batch.tokenIds, c.mapping)
    ensures Ran(old(c.Now()), old(sc.computes), sc.computes, SubbatchWorks(m, batch.tokenIds),
                Request(m, c.mapping, c.page, me, since))
    ensures stop == None ==> |sc.computes| == |old(sc.computes)| + PhaseCount(m) + 1
    ensures stop.Some? ==> StoppedBy(stop.value, world, m, batch.tokenIds, c.mapping, c.Now())
    ensures (Granting(world) && !old(c.Now()).diag.poisoned && NoFaults(world, start, start + StepCount(m))
             && AllLeasable(m) && RowsReady(m, batch.tokenIds, c.mapping)) ==> stop == None
  {
    hide *;
    StepsSplit(world, m, start);
    var in' := GraphFor(Forward.ArchOf(m.forward), config, batch).inputs;
    ghost var first, ids := c.Now(), IdsOf(items);
    ghost var log, q := sc.computes, Request(m, c.mapping, c.page, me, since);
    rows := [];
    LeasesOf(c);
    SubbatchFacts(m, c.mapping, exp, config, batch, items, pad);
    sc.slots.InvalidateAll();
    stop := EmbedPhase(c, world, m, Forward.Lifted(exp, m.forward, in'), batch.tokenIds, sc, start, me, since);
    next := start + 2;
    TokensRan(first, log, sc.computes, m, batch.tokenIds, q);
    if stop.Some? { return; }
    ghost var was, mid := c.Now(), sc.computes;
    ProgressSettles(world, first, was, me, since);
    SamePoison(c, world, first, was, me, since);
    ghost var x := EmbeddedThere(m, exp, in', ids, sc.slots.entries);
    var broken;
    broken, next, x := LeasedLayers(c, world, m, exp, in', batch.padded, config.layout == Padded, sc, next, ids, x, me,
                                    since);
    ProgressStill(world, first, was, c.Now(), me, since);
    LayersRan(first, was, log, mid, sc.computes, m, batch.tokenIds, q);
    if broken.Some? {
      ByInterrupt(broken.value, world, m, batch.tokenIds, c.mapping, c.Now());
      return Some(Interrupted(broken.value)), next, [];
    }
    AfterAll(m, exp, in', ids, sc.slots.entries, x);
    if world.faults(next) {
      FaultBecause(world, next, !AllLeasable(m), c.Now());
      ByInterrupt(Fault(next), world, m, batch.tokenIds, c.mapping, c.Now());
      return Some(Interrupted(Fault(next))), next, [];
    }
    ProgressSettles(world, first, c.Now(), me, since);
    FinalRan(c, first, log, sc.computes, m, batch.tokenIds, q);
    rows := sc.RunFinal(exp, m.forward, config, batch, items, pad);
    next := next + 1;
  }

  lemma TokensRan(first: Moment, log: seq<Compute>, now: seq<Compute>, m: Loaded, ids: seq<int>, q: Request)
    requires Ran(first, log, now, [TokenRows(ids)], q)
    ensures Ran(first, log, now, SubbatchWorks(m, ids), q)
  {
    hide Ran, LayersWorks;
    RanPart(first, log, now, [TokenRows(ids)], SubbatchWorks(m, ids), q);
  }

  lemma LayersRan(first: Moment, was: Moment, log: seq<Compute>, mid: seq<Compute>, now: seq<Compute>, m: Loaded,
                  ids: seq<int>, q: Request)
    requires Ran(first, log, mid, [TokenRows(ids)], q) && |mid| == |log| + 1 && Later(first, was)
    requires Ran(was, mid, now, LayersWorks(m.layers, |m.layers|), q)
    ensures Ran(first, log, now, [TokenRows(ids)] + LayersWorks(m.layers, |m.layers|), q)
    ensures Ran(first, log, now, SubbatchWorks(m, ids), q)
  {
    hide Ran, LayersWorks, Later;
    RanStill(first, was, log, mid, now, [TokenRows(ids)], LayersWorks(m.layers, |m.layers|), q);
    RanPart(first, log, now, [TokenRows(ids)] + LayersWorks(m.layers, |m.layers|), SubbatchWorks(m, ids), q);
  }

  lemma FinalRan(c: Coordinator, first: Moment, log: seq<Compute>, now: seq<Compute>, m: Loaded, ids: seq<int>,
                 q: Request)
    requires c.Valid() && q.mapping == c.mapping && q.page == c.page && Later(first, c.Now())
    requires Ran(first, log, now, [TokenRows(ids)] + LayersWorks(m.layers, |m.layers|), q)
    requires |now| == |log| + 1 + GroupCount(m.layers)
    ensures Ran(first, log, now + [Compute(Final, 0, c.Now())], SubbatchWorks(m, ids), q)
  {
    hide Ran, LayersWorks, Later, Coordinator.Valid;
    var end, front := Compute(Final, 0, c.Now()), [TokenRows(ids)] + LayersWorks(m.layers, |m.layers|);
    LeaseAdvised(c, 0);
    Unmoved(c.Now());
    assert m.layers[..|m.layers|] == m.layers;
    RanOne(c.Now(), now, end, q);
    RanStill(first, c.Now(), log, now, now + [end], front, [Final], q);
  }

  // The steps of a sub-batch: the token phase, the groups, the end.
  lemma StepsSplit(world: World, m: Loaded, start: nat)
    ensures PhaseCount(m) == 1 + GroupCount(m.layers) && StepCount(m) == 3 + 2 * GroupCount(m.layers)
    ensures NoFaults(world, start, start + StepCount(m)) <==>
      && !world.faults(start) && !world.faults(start + 1)
      && NoFaults(world, start + 2, start + 2 + 2 * GroupCount(m.layers))
      && !world.faults(start + 2 + 2 * GroupCount(m.layers))
  {
  }

  lemma ByInterrupt(why: Interrupt, world: World, m: Loaded, ids: seq<int>, mapping: nat, now: Moment)
    requires Because(why, world, !AllLeasable(m), now)
    ensures StoppedBy(Interrupted(why), world, m, ids, mapping, now)
  {
  }

  lemma EmbeddedThere(m: Loaded, exp: Exponential, in': GraphInputs, ids: seq<seq<int>>, entries: SlotRuns.Env<Acts>)
    returns (x: Acts)
    requires |entries| == Net.SlotCount(m.forward.family) && Describes(Forward.ArchOf(m.forward), in', ids)
    requires entries[Net.RESIDUAL] == Some(Net.EmbeddingPhase(
      Forward.Lifted(exp, m.forward, in'), m.forward.family, Net.EmbeddingGiven(m.forward.family)))
    ensures After(m, exp, in', ids, 0, entries, x)
  {
    hide Describes, Forward.Activation, Forward.Lifted, Forward.ArchOf;
    x := entries[Net.RESIDUAL].value;
    Forward.ActivationStart(exp, m.forward, in', ids);
  }

  lemma AfterAll(m: Loaded, exp: Exponential, in': GraphInputs, ids: seq<seq<int>>, entries: SlotRuns.Env<Acts>,
                 x: Acts)
    requires After(m, exp, in', ids, |m.layers|, entries, x) && |m.layers| == m.forward.layers
    ensures Net.RESIDUAL < |entries| == Net.SlotCount(m.forward.family) && entries[Net.RESIDUAL] == Some(x)
    ensures Forward.Activation(exp, Forward.ArchOf(m.forward), in', ids, m.forward.layers, x)
  {
  }

  // What a laid-out sub-batch tells the graphs.
  lemma SubbatchFacts(m: Loaded, mapping: nat, exp: Exponential, config: Config, batch: MaterializedBatch,
                      items: seq<Item>, pad: int)
    requires LoadedOk(m, mapping) && Laid(batch, items, pad) && RealRows(items) && ByLength(items)
    ensures Forward.ModelOk(m.forward) && |m.layers| == m.forward.layers && IdsOf(items) != []
    ensures var in' := GraphFor(Forward.ArchOf(m.forward), config, batch).inputs;
      && Describes(Forward.ArchOf(m.forward), in', IdsOf(items))
      && Forward.GivenMatches(in', Net.EagerGiven(m.forward.family, batch.padded, config.layout == Padded))
  {
    hide Laid, ByLength, Describes, GraphFor, Forward.GivenMatches, Forward.ArchOf, Net.EagerGiven, ArchOk, LoadedOk;
    ModelOf(m, mapping);
    Forward.ArchFits(m.forward, config.layout);
    BatchDescribes(Forward.ArchOf(m.forward), config, batch, items, pad);
    Forward.GraphMatches(m.forward, config, batch);
  }

  lemma ModelOf(m: Loaded, mapping: nat)
    requires LoadedOk(m, mapping)
    ensures Forward.ModelOk(m.forward) && |m.layers| == m.forward.layers
  {
  }

  // ---- A request ----

  // An output cell: not a number, or a text's embedding.
  datatype OutCell = NaN | Row(v: Vec)

  // The rows of the texts planned so far.
  ghost predicate RowsDone(exp: Exponential, arch: Arch, config: Config, items: seq<Item>, n: nat, out: seq<OutCell>) {
    n <= |items| && forall k | 0 <= k < n :: var item := items[k];
      item.original < |out| && item.ids != [] && out[item.original] == Row(Alone(exp, arch, config, item.ids))
  }

  lemma OneRowMore(exp: Exponential, arch: Arch, config: Config, items: seq<Item>, n: nat, out: seq<OutCell>, v: Vec)
    requires RowsDone(exp, arch, config, items, n, out) && Distinct(items) && n < |items|
    requires items[n].original < |out| && items[n].ids != [] && v == Alone(exp, arch, config, items[n].ids)
    ensures RowsDone(exp, arch, config, items, n + 1, out[items[n].original := Row(v)])
  {
    hide Alone;
  }

  // Copy one sub-batch's rows to their callers' places.
  method CopyRows(ghost exp: Exponential, ghost arch: Arch, ghost config: Config, originals: seq<nat>, rows: seq<Vec>,
                  out: array<OutCell>, ghost items: seq<Item>, ghost from: nat, ghost count: nat)
    requires Distinct(items) && from + |rows| <= |items| && |originals| == |rows|
    requires forall b | 0 <= b < |rows| :: originals[b] == items[from + b].original
    requires forall k | 0 <= k < |items| :: items[k].original < count <= out.Length
    requires RowsAlone(exp, arch, config, rows, items[from..from + |rows|])
    requires RowsDone(exp, arch, config, items, from, out[..])
    modifies out
    ensures RowsDone(exp, arch, config, items, from + |rows|, out[..])
    ensures forall i | count <= i < out.Length :: out[i] == old(out[i])
  {
    hide Alone, Distinct, RowsDone;
    for b := 0 to |rows|
      invariant RowsDone(exp, arch, config, items, from + b, out[..])
      invariant forall i | count <= i < out.Length :: out[i] == old(out[i])
    {
      assert items[from..from + |rows|][b] == items[from + b];
      OneRowMore(exp, arch, config, items, from + b, out[..], rows[b]);
      ghost var was := out[..];
      out[originals[b]] := Row(rows[b]);
      assert out[..] == was[originals[b] := Row(rows[b])];
    }
  }

  // The ids in the padded grid of a sub-batch.
  function GridIds(items: seq<Item>, pad: int): seq<int>
    requires items != []
  {
    var S := |Last(items).ids|;
    seq(S * |items|, i requires 0 <= i < S * |items| => GridId(items, pad, S, i))
  }

  function GridId(items: seq<Item>, pad: int, S: nat, i: nat): int {
    if S == 0 then pad
    else
      var (b, s) := (RowOf(S, i), ColOf(S, i));
      if b < |items| && s < |items[b].ids| then items[b].ids[s] else pad
  }

  // The rows asked for texts of the vocabulary are rows of the vocabulary.
  lemma GridInVocabulary(items: seq<Item>, paddingId: int, vocabSize: int)
    requires items != [] && vocabSize > 0
    requires forall b, s | 0 <= b < |items| && 0 <= s < |items[b].ids| :: 0 <= items[b].ids[s] < vocabSize
    ensures forall id | id in GridIds(items, PadId(paddingId, vocabSize)) :: 0 <= id < vocabSize
  {
    hide PadId;
    PadInVocabulary(paddingId, vocabSize);
  }

  lemma GridIsIds(batch: MaterializedBatch, items: seq<Item>, pad: int)
    requires Laid(batch, items, pad) && RealRows(items)
    ensures batch.tokenIds == GridIds(items, pad)
  {
    hide Masks, PackedView, Tokens;
    var S, ids := batch.seqLen, GridIds(items, pad);
    forall i | 0 <= i < |ids| ensures batch.tokenIds[i] == ids[i] {
      GqaAttention.CellSplit(S, |items|, i);
      assert batch.tokenIds[Cell(S, RowOf(S, i), ColOf(S, i))] == ids[i];
    }
  }

  function LeaseCount(n: nat, m: Loaded): nat { if n == 0 then 0 else LeaseCount(n - 1, m) + PhaseCount(m) }

  function Steps(n: nat, m: Loaded): nat { if n == 0 then 0 else Steps(n - 1, m) + StepCount(m) }

  lemma {:induction false} StepsGrow(a: nat, b: nat, m: Loaded)
    requires a <= b
    ensures Steps(a, m) <= Steps(b, m)
    decreases b
  {
    if a < b { StepsGrow(a, b - 1, m); }
  }

  ghost predicate SubbatchReady(plan: Plan, n: nat, m: Loaded, pad: int, mapping: nat) {
    && plan.maxBatch > 0 && n < SubbatchCount(plan)
    && Fits(Slice(plan, n)) && RowsReady(m, GridIds(Slice(plan, n), pad), mapping)
  }

  // Everything a plan needs to go through, other than the coordinator's and the system's favour.
  ghost predicate PlanReady(plan: Plan, world: World, m: Loaded, pad: int, vocabSize: int, mapping: nat)
    requires plan.maxBatch > 0
  {
    && vocabSize > 0 && AllLeasable(m) && NoFaults(world, 0, Steps(SubbatchCount(plan), m))
    && forall n | 0 <= n < SubbatchCount(plan) :: SubbatchReady(plan, n, m, pad, mapping)
  }

  // Why a planned request stopped.
  ghost predicate PlanStopped(stop: Stop, plan: Plan, world: World, m: Loaded, pad: int, vocabSize: int, mapping: nat,
                              now: Moment)
    requires plan.maxBatch > 0
  {
    match stop
    case Interrupted(why) => Because(why, world, !AllLeasable(m), now)
    case BadRows(_) => exists n | 0 <= n < SubbatchCount(plan) :: !RowsReady(m, GridIds(Slice(plan, n), pad), mapping)
    case BadBatch(error) =>
      if vocabSize <= 0 then error == NoVocabulary
      else error == TooLarge && exists n | 0 <= n < SubbatchCount(plan) :: !Fits(Slice(plan, n))
    case CannotPlan(_) => false
  }

  // What sub-batch n computes, and what the first n compute.
  function NthWorks(plan: Plan, n: nat, m: Loaded, pad: int): (works: seq<Work>)
    requires plan.maxBatch > 0 && n < SubbatchCount(plan)
    ensures |works| == PhaseCount(m) + 1
  {
    SubbatchBounds(plan, n);
    SubbatchWorks(m, GridIds(Slice(plan, n), pad))
  }

  function PlanWorks(plan: Plan, n: nat, m: Loaded, pad: int): (works: seq<Work>)
    requires plan.maxBatch > 0 && n <= SubbatchCount(plan)
    ensures |works| == LeaseCount(n, m) + n
  {
    if n == 0 then [] else PlanWorks(plan, n - 1, m, pad) + NthWorks(plan, n - 1, m, pad)
  }

  lemma {:induction false} PlanGrows(plan: Plan, a: nat, b: nat, m: Loaded, pad: int)
    requires plan.maxBatch > 0 && a <= b <= SubbatchCount(plan)
    ensures PlanWorks(plan, a, m, pad) <= PlanWorks(plan, b, m, pad)
    decreases b
  {
    hide NthWorks, SubbatchCount, LeaseCount;
    if a < b { PlanGrows(plan, a, b - 1, m, pad); }
  }

  lemma NthRan(first: Moment, was: Moment, log: seq<Compute>, mid: seq<Compute>, now: seq<Compute>, plan: Plan, n: nat,
               m: Loaded, pad: int, q: Request)
    requires plan.maxBatch > 0 && n < SubbatchCount(plan) && Later(first, was)
    requires Ran(first, log, mid, PlanWorks(plan, n, m, pad), q) && |mid| == |log| + LeaseCount(n, m) + n
    requires Ran(was, mid, now, NthWorks(plan, n, m, pad), q)
    ensures Ran(first, log, now, PlanWorks(plan, n + 1, m, pad), q)
    ensures Ran(first, log, now, PlanWorks(plan, SubbatchCount(plan), m, pad), q)
  {
    hide Ran, NthWorks, SubbatchCount, LeaseCount, Later;
    RanStill(first, was, log, mid, now, PlanWorks(plan, n, m, pad), NthWorks(plan, n, m, pad), q);
    assert PlanWorks(plan, n + 1, m, pad) == PlanWorks(plan, n, m, pad) + NthWorks(plan, n, m, pad);
    PlanGrows(plan, n + 1, SubbatchCount(plan), m, pad);
    RanPart(first, log, now, PlanWorks(plan, n + 1, m, pad), PlanWorks(plan, SubbatchCount(plan), m, pad), q);
  }

  // Sub-batch n: laid out, run, and its rows copied to their callers.
  method RunNth(c: Coordinator, world: World, m: Loaded, exp: Exponential, config: Config, plan: Plan, n: nat,
                paddingId: int, vocabSize: int, sc: Context, step: nat, out: array<OutCell>,
                ghost count: nat, ghost me: nat, ghost since: nat)
    returns (stop: Option<Stop>, next: nat)
    requires c.Valid() && WorldOk(world, c.mapping, me) && LoadedOk(m, c.mapping)
    requires sc.residency == c
    requires Settled(c.Now(), me, since) && since <= |c.Now().takers|
    requires |sc.slots.entries| == Net.SlotCount(m.forward.family)
    requires PlanOk(plan) && Distinct(plan.items) && plan.maxBatch > 0 && n < SubbatchCount(plan)
    requires count <= out.Length && forall k | 0 <= k < |plan.items| :: plan.items[k].original < count
    requires RowsDone(exp, Forward.ArchOf(m.forward), config, plan.items, Done(plan, n), out[..])
    modifies c, out, sc`computes, sc.slots
    ensures c.Valid() && Progress(world, old(c.Now()), c.Now(), me, since)
    ensures forall i | count <= i < out.Length :: out[i] == old(out[i])
    ensures stop == None ==> |sc.slots.entries| == Net.SlotCount(m.forward.family)
    ensures stop == None ==> RowsDone(exp, Forward.ArchOf(m.forward), config, plan.items, Done(plan, n + 1), out[..])
    ensures stop == None ==>
      TakenBy(c.Now(), me) == TakenBy(old(c.Now()), me) + PhaseCount(m) && next == step + StepCount(m)
    ensures stop == None ==> NoFaults(world, step, next) && AllLeasable(m) && vocabSize > 0
    ensures stop == None ==> SubbatchReady(plan, n, m, PadId(paddingId, vocabSize), c.mapping)
    ensures Ran(old(c.Now()), old(sc.computes), sc.computes, NthWorks(plan, n, m, PadId(paddingId, vocabSize)),
                Request(m, c.mapping, c.page, me, since))
    ensures stop == None ==> |sc.computes| == |old(sc.computes)| + PhaseCount(m) + 1
    ensures stop.Some? ==>
      PlanStopped(stop.value, plan, world, m, PadId(paddingId, vocabSize), vocabSize, c.mapping, c.Now())
    ensures (Granting(world) && !old(c.Now()).diag.poisoned && NoFaults(world, step, step + StepCount(m))
             && AllLeasable(m) && vocabSize > 0 && SubbatchReady(plan, n, m, PadId(paddingId, vocabSize), c.mapping))
      ==> stop == None
  {
    hide Coordinator.Valid, Coordinator.Now, Progress, Settled, TakenBy, Granting, Undisturbed, NothingRefused, Later,
      WorldOk, Because, AllLeasable, LoadedOk, RowsReady, RowsAlone, RowsDone, Distinct, Laid, Fits, Slice, Begin, End,
      SubbatchCount, ByLength, Forward.ArchOf, GridIds, PhaseCount, StepCount, NoFaults, Ran,
      SubbatchWorks;
    ghost var pad, arch := PadId(paddingId, vocabSize), Forward.ArchOf(m.forward);
    next := step;
    RanNothing(c.Now(), sc.computes, NthWorks(plan, n, m, pad), Request(m, c.mapping, c.page, me, since));
    var materialized := Materialize(plan, n, paddingId, vocabSize);
    if materialized.Err? {
      assert vocabSize > 0 ==> !Fits(Slice(plan, n));
      NoProgress(world, c.Now(), me, since);
      return Some(BadBatch(materialized.error)), next;
    }
    var batch := materialized.value;
    DoneNext(plan, n);
    SliceOk(plan, n);
    GridIsIds(batch, Slice(plan, n), pad);
    var rows;
    stop, next, rows := RunSubbatch(c, world, m, exp, config, batch, sc, step, Slice(plan, n), pad, me, since);
    if stop.Some? {
      assert stop.value.BadRows? ==> !RowsReady(m, GridIds(Slice(plan, n), pad), c.mapping);
      return;
    }
    BatchRows(exp, arch, config, batch, Slice(plan, n), pad, rows);
    CopyRows(exp, arch, config, batch.originals, rows, out, plan.items, Done(plan, n), count);
  }

  // Every sub-batch in turn; stop at the first that throws.
  method RunPlan(c: Coordinator, world: World, m: Loaded, exp: Exponential, config: Config, plan: Plan, paddingId: int,
                 vocabSize: int, sc: Context, out: array<OutCell>, ghost count: nat, ghost me: nat)
    returns (stop: Option<Stop>)
    requires c.Valid() && WorldOk(world, c.mapping, me) && LoadedOk(m, c.mapping)
    requires sc.residency == c
    requires PlanOk(plan) && Distinct(plan.items) && plan.maxBatch > 0 && plan.items != []
    requires count <= out.Length && forall k | 0 <= k < |plan.items| :: plan.items[k].original < count
    modifies c, out, sc`computes, sc.slots
    ensures c.Valid() && Progress(world, old(c.Now()), c.Now(), me, |old(c.Now()).takers|)
    ensures stop == None ==> RowsDone(exp, Forward.ArchOf(m.forward), config, plan.items, |plan.items|, out[..])
    ensures stop == None ==> TakenBy(c.Now(), me) == TakenBy(old(c.Now()), me) + LeaseCount(SubbatchCount(plan), m)
    ensures stop == None ==> PlanReady(plan, world, m, PadId(paddingId, vocabSize), vocabSize, c.mapping)
    ensures Ran(old(c.Now()), old(sc.computes), sc.computes,
                PlanWorks(plan, SubbatchCount(plan), m, PadId(paddingId, vocabSize)),
                Request(m, c.mapping, c.page, me, |old(c.Now()).takers|))
    ensures stop == None ==>
      |sc.computes| == |old(sc.computes)| + LeaseCount(SubbatchCount(plan), m) + SubbatchCount(plan)
    ensures stop.Some? ==>
      PlanStopped(stop.value, plan, world, m, PadId(paddingId, vocabSize), vocabSize, c.mapping, c.Now())
    ensures (Granting(world) && !old(c.Now()).diag.poisoned
             && PlanReady(plan, world, m, PadId(paddingId, vocabSize), vocabSize, c.mapping)) ==> stop == None
    ensures forall i | count <= i < out.Length :: out[i] == old(out[i])
  {
    hide *;
    ghost var first, since := c.Now(), |c.Now().takers|;
    ghost var pad, arch := PadId(paddingId, vocabSize), Forward.ArchOf(m.forward);
    LeasesOf(c);
    FreshSettled(first, me);
    NoProgress(world, first, me, since);
    ghost var log, q := sc.computes, Request(m, c.mapping, c.page, me, since);
    RanNothing(first, log, PlanWorks(plan, 0, m, pad), q);
    RanNothing(first, log, PlanWorks(plan, SubbatchCount(plan), m, pad), q);
    sc.slots.Resize(Net.SlotCount(m.forward.family));
    NoRows(exp, arch, config, plan.items, out[..]);
    var step := 0;
    DoneNext(plan, 0);
    SubbatchBounds(plan, 0);
    NothingCounted(world, m);
    for n := 0 to SubbatchCount(plan)
      invariant c.Valid() && Progress(world, first, c.Now(), me, since)
      invariant Ran(first, log, sc.computes, PlanWorks(plan, n, m, pad), q)
      invariant |sc.computes| == |log| + LeaseCount(n, m) + n
      invariant |sc.slots.entries| == Net.SlotCount(m.forward.family)
      invariant TakenBy(c.Now(), me) == TakenBy(first, me) + LeaseCount(n, m) && step == Steps(n, m)
      invariant NoFaults(world, 0, step) && (n > 0 ==> vocabSize > 0 && AllLeasable(m))
      invariant forall n' | 0 <= n' < n :: SubbatchReady(plan, n', m, pad, c.mapping)
      invariant RowsDone(exp, arch, config, plan.items, Done(plan, n), out[..])
      invariant forall i | count <= i < out.Length :: out[i] == old(out[i])
    {
      ghost var was, mid := c.Now(), sc.computes;
      ProgressSettles(world, first, was, me, since);
      SamePoison(c, world, first, was, me, since);
      CountedNext(world, m, n);
      ReadyParts(plan, world, m, pad, vocabSize, c.mapping, n);
      stop, step := RunNth(c, world, m, exp, config, plan, n, paddingId, vocabSize, sc, step, out, count, me, since);
      ProgressStill(world, first, was, c.Now(), me, since);
      NthRan(first, was, log, mid, sc.computes, plan, n, m, pad, q);
      if stop.Some? { return; }
    }
    ReadyWhole(plan, world, m, pad, vocabSize, c.mapping);
    stop := None;
  }

  lemma NothingCounted(world: World, m: Loaded)
    ensures LeaseCount(0, m) == 0 && Steps(0, m) == 0 && NoFaults(world, 0, 0)
  {
  }

  lemma CountedNext(world: World, m: Loaded, n: nat)
    ensures LeaseCount(n + 1, m) == LeaseCount(n, m) + PhaseCount(m) && Steps(n + 1, m) == Steps(n, m) + StepCount(m)
    ensures NoFaults(world, 0, Steps(n + 1, m)) <==>
      NoFaults(world, 0, Steps(n, m)) && NoFaults(world, Steps(n, m), Steps(n + 1, m))
  {
  }

  lemma ReadyParts(plan: Plan, world: World, m: Loaded, pad: int, vocabSize: int, mapping: nat, n: nat)
    requires plan.maxBatch > 0 && n < SubbatchCount(plan)
    ensures PlanReady(plan, world, m, pad, vocabSize, mapping) ==>
      && vocabSize > 0 && AllLeasable(m) && NoFaults(world, 0, Steps(n + 1, m))
      && SubbatchReady(plan, n, m, pad, mapping)
  {
    hide AllLeasable, SubbatchReady, SubbatchCount, StepCount;
    StepsGrow(n + 1, SubbatchCount(plan), m);
  }

  lemma ReadyWhole(plan: Plan, world: World, m: Loaded, pad: int, vocabSize: int, mapping: nat)
    requires plan.maxBatch > 0 && vocabSize > 0 && AllLeasable(m) && NoFaults(world, 0, Steps(SubbatchCount(plan), m))
    requires forall n | 0 <= n < SubbatchCount(plan) :: SubbatchReady(plan, n, m, pad, mapping)
    ensures PlanReady(plan, world, m, pad, vocabSize, mapping)
  {
  }

  lemma FreshSettled(m: Moment, me: nat)
    ensures Settled(m, me, |m.takers|)
  {
  }

  lemma NoRows(exp: Exponential, arch: Arch, config: Config, items: seq<Item>, out: seq<OutCell>)
    ensures RowsDone(exp, arch, config, items, 0, out)
  {
  }

  // Every text can be planned, and the plan can go through.
  ghost predicate RequestReady(world: World, m: Loaded, encode: TextEncoder, texts: seq<string>, maxBatch: int,
                               paddingId: int, vocabSize: int, mapping: nat)
  {
    && Plannable(encode, texts, maxBatch)
    && PlanReady(PlanOf(encode, texts, maxBatch), world, m, PadId(paddingId, vocabSize), vocabSize, mapping)
  }

  ghost predicate Plannable(encode: TextEncoder, texts: seq<string>, maxBatch: int) {
    maxBatch > 0 && forall i | 0 <= i < |texts| :: Ids(encode, texts[i]) != []
  }

  // What a request computes.
  ghost function RequestWorks(encode: TextEncoder, texts: seq<string>, maxBatch: int, m: Loaded, pad: int): seq<Work>
    requires Plannable(encode, texts, maxBatch)
  {
    var plan := PlanOf(encode, texts, maxBatch);
    PlanWorks(plan, SubbatchCount(plan), m, pad)
  }

  // What stops a request.
  ghost predicate Stopped(stop: Stop, world: World, m: Loaded, encode: TextEncoder, texts: seq<string>, maxBatch: int,
                          paddingId: int, vocabSize: int, mapping: nat, now: Moment)
  {
    if stop.CannotPlan? then !Plannable(encode, texts, maxBatch)
    else
      && Plannable(encode, texts, maxBatch)
      && PlanStopped(stop, PlanOf(encode, texts, maxBatch), world, m, PadId(paddingId, vocabSize), vocabSize, mapping,
                     now)
  }

  // A request that fails after planning leaves nothing but NaN in its rows; one that
  // succeeds has written in each what its text gets alone. Either way every lease it took
  // is back, exactly once, and only a refused DONTNEED can have poisoned the coordinator.
  // Where the system refuses nothing it fails only for a reason of its own.
  method EmbedBatch(c: Coordinator, world: World, m: Loaded, exp: Exponential, config: Config, encode: TextEncoder,
                    texts: seq<string>, maxBatch: int, paddingId: int, vocabSize: int, sc: Context,
                    out: array<OutCell>, ghost me: nat)
    returns (stop: Option<Stop>)
    requires c.Valid() && WorldOk(world, c.mapping, me) && LoadedOk(m, c.mapping) && |texts| <= out.Length
    requires sc.residency == c
    modifies c, out, sc`computes, sc.slots
    ensures c.Valid() && Later(old(c.Now()), c.Now())
    ensures forall id | |old(c.takers)| < id <= |c.takers| && c.takers[id - 1] == me :: multiset(c.returned)[id] == 1
    ensures Undisturbed(world) ==>
      && c.active == old(c.active)
      && c.diag.acquired - old(c.diag).acquired == c.diag.released - old(c.diag).released
         == TakenBy(c.Now(), me) - TakenBy(old(c.Now()), me)
    ensures c.diag.poisoned ==> old(c.diag).poisoned || c.diag.dontNeedFailures > old(c.diag).dontNeedFailures
    ensures stop == None ==> forall i | 0 <= i < |texts| ::
      && Ids(encode, texts[i]) != []
      && out[i] == Row(Alone(exp, Forward.ArchOf(m.forward), config, Ids(encode, texts[i])))
    ensures stop == None ==>
      texts == [] || RequestReady(world, m, encode, texts, maxBatch, paddingId, vocabSize, c.mapping)
    ensures stop == None && texts != [] ==>
      TakenBy(c.Now(), me) == TakenBy(old(c.Now()), me) + LeaseCount(SubbatchCount(PlanOf(encode, texts, maxBatch)), m)
    ensures stop.Some? ==>
      texts != [] && Stopped(stop.value, world, m, encode, texts, maxBatch, paddingId, vocabSize, c.mapping, c.Now())
    ensures Granting(world) && !old(c.diag).poisoned ==>
      (stop == None <==>
         texts == [] || RequestReady(world, m, encode, texts, maxBatch, paddingId, vocabSize, c.mapping))
    ensures texts == [] || !Plannable(encode, texts, maxBatch) ==> sc.computes == old(sc.computes)
    ensures texts != [] && Plannable(encode, texts, maxBatch) ==>
      var works := RequestWorks(encode, texts, maxBatch, m, PadId(paddingId, vocabSize));
      && Ran(old(c.Now()), old(sc.computes), sc.computes, works, Request(m, c.mapping, c.page, me, |old(c.takers)|))
      && (stop == None ==> |sc.computes| == |old(sc.computes)| + |works|)
    ensures stop.Some? && stop.value.CannotPlan? ==> out[..] == old(out[..]) && c.Now() == old(c.Now())
    ensures stop.Some? && !stop.value.CannotPlan? ==> forall i | 0 <= i < |texts| :: out[i] == NaN
    ensures forall i | |texts| <= i < out.Length :: out[i] == old(out[i])
  {
    hide Coordinator.Valid, Progress, Settled, TakenBy, Granting, Undisturbed, Later, WorldOk, LoadedOk, RowsDone,
      Distinct, PlanReady, PlanStopped, PlanFor, Alone, Forward.ArchOf, SubbatchCount, LeaseCount,
      Ran, PlanWorks;
    LeasesOf(c);
    ghost var first := c.Now();
    NothingNew(c);
    if texts == [] { return None; }
    var planned := MakePlan(encode, texts, maxBatch);
    if planned.Err? { return Some(CannotPlan(planned.error)); }
    var plan := planned.value;
    PlanIsOk(plan, encode, texts);
    PlanDistinct(plan, encode, texts);
    PlanCovers(plan, encode, texts);
    stop := RunPlan(c, world, m, exp, config, plan, paddingId, vocabSize, sc, out, |texts|, me);
    AllBack(c, world, first, me);
    if stop.Some? {
      WasPlanned(stop.value, plan, world, m, PadId(paddingId, vocabSize), vocabSize, c.mapping, c.Now());
      PoisonOutput(out, |texts|);
    } else {
      RowsOfTexts(plan, encode, texts, exp, Forward.ArchOf(m.forward), config, out[..]);
    }
  }

  method PoisonOutput(out: array<OutCell>, count: nat)
    requires count <= out.Length
    modifies out
    ensures forall i | 0 <= i < count :: out[i] == NaN
    ensures forall i | count <= i < out.Length :: out[i] == old(out[i])
  {
    for i := 0 to count
      invariant forall k | 0 <= k < i :: out[k] == NaN
      invariant forall k | count <= k < out.Length :: out[k] == old(out[k])
    {
      out[i] := NaN;
    }
  }

  lemma WasPlanned(stop: Stop, plan: Plan, world: World, m: Loaded, pad: int, vocabSize: int, mapping: nat, now: Moment)
    requires plan.maxBatch > 0 && PlanStopped(stop, plan, world, m, pad, vocabSize, mapping, now)
    ensures !stop.CannotPlan?
  {
  }

  lemma PlanCovers(plan: Plan, encode: TextEncoder, texts: seq<string>)
    requires PlanFor(plan, encode, texts) && texts != []
    ensures plan.items != [] && plan.maxBatch > 0
    ensures forall k | 0 <= k < |plan.items| :: plan.items[k].original < |texts|
  {
  }

  lemma NothingNew(c: Coordinator)
    requires c.Valid()
    ensures Later(c.Now(), c.Now())
  {
    Unmoved(c.Now());
  }

  lemma {:induction false} CountedOnce<T>(s: seq<T>, x: T)
    requires x in s && forall i, j | 0 <= i < j < |s| :: s[i] != s[j]
    ensures multiset(s)[x] == 1
  {
    var front := s[..|s| - 1];
    assert s == front + [Last(s)];
    if Last(s) == x {
      assert x !in front;
      assert x !in multiset(front);
    } else {
      CountedOnce(front, x);
    }
  }

  // What the books say once a request is over.
  lemma AllBack(c: Coordinator, world: World, first: Moment, me: nat)
    requires c.Valid() && Progress(world, first, c.Now(), me, |first.takers|)
    requires first.diag.acquired == |first.takers| && first.diag.released == |first.returned|
    requires first.diag.acquired == first.diag.released + |first.books.active|
    requires first.diag.poisoned <==> first.diag.dontNeedFailures > 0 || first.diag.prematureReleases > 0
    ensures Later(first, c.Now())
    ensures forall id | |first.takers| < id <= |c.takers| && c.takers[id - 1] == me :: multiset(c.returned)[id] == 1
    ensures Undisturbed(world) ==>
      && c.active == first.books.active
      && c.diag.acquired - first.diag.acquired == c.diag.released - first.diag.released
         == TakenBy(c.Now(), me) - TakenBy(first, me)
    ensures c.diag.poisoned ==> first.diag.poisoned || c.diag.dontNeedFailures > first.diag.dontNeedFailures
  {
    hide Ledger.BooksOk, Safe, Accounted, Undisturbed, Granting, TakenBy;
    forall id | |first.takers| < id <= |c.takers| && c.takers[id - 1] == me ensures multiset(c.returned)[id] == 1 {
      CountedOnce(c.returned, id);
    }
  }

  lemma RowsOfTexts(plan: Plan, encode: TextEncoder, texts: seq<string>, exp: Exponential, arch: Arch, config: Config,
                    out: seq<OutCell>)
    requires PlanFor(plan, encode, texts) && RowsDone(exp, arch, config, plan.items, |plan.items|, out)
    requires |texts| <= |out|
    ensures forall i | 0 <= i < |texts| ::
      Ids(encode, texts[i]) != [] && out[i] == Row(Alone(exp, arch, config, Ids(encode, texts[i])))
  {
    hide Alone;
    forall i | 0 <= i < |texts|
      ensures Ids(encode, texts[i]) != [] && out[i] == Row(Alone(exp, arch, config, Ids(encode, texts[i])))
    {
      var k :| 0 <= k < |plan.items| && plan.items[k] == Item(Ids(encode, texts[i]), i);
    }
  }
}
