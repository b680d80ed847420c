// What a streaming request computes with: the slots its groups exchange values through,
// and, for every graph it computes, what for and how things stood at that moment.
module StreamingContext {
  import opened Prelude
  import opened Ranges
  import opened Ledger
  import opened Residency
  import opened Leases
  import opened StreamingModel
  import opened Attention
  import opened Batch
  import opened Encoder
  import opened Embedder
  import Forward = StreamingForward
  import Net = Architectures
  import Slots
  import SlotRuns

  // What flows through the slots: one vector per token.
  type Acts = seq<Vec>

  // The graphs of a sub-batch: the token lookup, one per group, the end.
  datatype Work = TokenRows(ids: seq<int>) | Group(layer: nat, group: nat) | Final

  // A graph computed under a lease (0 for none), and the moment it was.
  datatype Compute = Compute(work: Work, lease: nat, at: Moment)

  class Context {
    const residency: Coordinator
    const slots: SlotRuns.SlotStore<Acts>
    ghost var computes: seq<Compute>

    constructor (residency: Coordinator)
      ensures this.residency == residency && fresh(slots) && slots.entries == [] && computes == []
    {
      this.residency, computes := residency, [];
      slots := new SlotRuns.SlotStore<Acts>();
    }

    // Look the tokens up.
    method RunEmbedding(alg: Net.Algebra<Acts>, f: Net.Family, ghost ids: seq<int>, ghost lease: nat)
      requires Net.RESIDUAL < |slots.entries|
      modifies slots, `computes
      ensures computes == old(computes) + [Compute(TokenRows(ids), lease, residency.Now())]
      ensures slots.entries
           == old(slots.entries)[Net.RESIDUAL := Some(Net.EmbeddingPhase(alg, f, Net.EmbeddingGiven(f)))]
    {
      computes := computes + [Compute(TokenRows(ids), lease, residency.Now())];
      slots.Download(Net.RESIDUAL, Net.EmbeddingPhase(alg, f, Net.EmbeddingGiven(f)));
    }

    // Run one group of a layer.
    method RunGroup(units: seq<SlotRuns.Unit<Acts>>, runs: seq<nat>, groups: seq<Slots.GroupSlots>, g: nat, begin: nat,
                    ghost env: SlotRuns.Env<Acts>, ghost layer: nat, ghost lease: nat)
      returns (failure: Option<SlotRuns.RunError>)
      requires Slots.Total(runs) == |units| && Slots.GroupsFor(SlotRuns.SlotsOf(units), runs, Net.RESIDUAL, groups)
      requires SlotRuns.Fit(units, |env|) && Net.RESIDUAL < |env| && g < |runs| && begin == Slots.Start(runs, g)
      requires SlotRuns.InStep(units, runs, Net.RESIDUAL, env, g, slots.entries)
      modifies slots, `computes
      ensures computes == old(computes) + [Compute(Group(layer, g), lease, residency.Now())]
      ensures |slots.entries| == |env| && Slots.Start(runs, g + 1) == begin + runs[g] <= |units|
      ensures failure == None <==> SlotRuns.RunUnits(units, 0, Slots.Start(runs, g + 1), env).Ok?
      ensures failure == None ==> SlotRuns.InStep(units, runs, Net.RESIDUAL, env, g + 1, slots.entries)
      ensures failure.Some? ==> SlotRuns.RunUnits(units, 0, |units|, env).Err?
    {
      hide SlotRuns.InStep, SlotRuns.Fit, SlotRuns.RunUnits, Slots.GroupsFor;
      computes := computes + [Compute(Group(layer, g), lease, residency.Now())];
      failure := SlotRuns.RunNext(slots, units, runs, groups, Net.RESIDUAL, g, begin, env);
    }

    // Norm, pool and normalize; no lease is held.
    method RunFinal(exp: Exponential, m: Forward.Model, config: Config, batch: MaterializedBatch,
                    ghost items: seq<Item>, ghost pad: int)
      returns (rows: seq<Vec>)
      requires Forward.ModelOk(m) && Laid(batch, items, pad) && RealRows(items) && ByLength(items)
      requires Net.RESIDUAL < |slots.entries| && slots.entries[Net.RESIDUAL].Some?
      requires Forward.Activation(exp, Forward.ArchOf(m), GraphFor(Forward.ArchOf(m), config, batch).inputs,
                                  IdsOf(items), m.layers, slots.entries[Net.RESIDUAL].value)
      modifies `computes
      ensures computes == old(computes) + [Compute(Final, 0, residency.Now())]
      ensures RowsAlone(exp, Forward.ArchOf(m), config, rows, items)
    {
      hide *;
      computes := computes + [Compute(Final, 0, residency.Now())];
      rows := Forward.FinalRows(exp, m, config, batch, slots.entries[Net.RESIDUAL].value, items, pad);
    }
  }

  // ---- What is on the books while something is computed ----

  // One request, under its own name, from its `since`-th lease on.
  datatype Request = Request(m: Loaded, mapping: nat, page: nat, me: nat, since: nat)

  // The pages a graph reads: those of the token rows asked for, or of its group's weights.
  ghost predicate Reads(q: Request, work: Work, ranges: seq<Range>)
    requires q.page > 0
  {
    match work
    case TokenRows(ids) =>
      && (forall i | 0 <= i < |ids| :: ids[i] >= 0)
      && Coalesced(ranges, Ranges.Rows(q.m.tokenOffset, q.m.rowStride, ids), q.mapping, q.page)
    case Group(l, g) => l < |q.m.layers| && g < |q.m.layers[l].ranges| && ranges == q.m.layers[l].ranges[g]
    case Final => false
  }

  // This request's lease is active on just those pages, and all of them are advised.
  ghost predicate UnderLease(e: Compute, q: Request)
    requires q.page > 0
  {
    && q.since < e.lease <= |e.at.takers| && e.at.takers[e.lease - 1] == q.me && e.lease in e.at.books.active
    && Reads(q, e.work, e.at.books.active[e.lease].ranges)
    && TouchedBytes(e.at.books.active[e.lease].ranges, q.mapping, q.page) <= e.at.advised
  }

  // The end reads common pages only. They are advised throughout.
  ghost predicate Covered(e: Compute, q: Request) {
    && q.page > 0 && TouchedBytes(e.at.books.common, q.mapping, q.page) <= e.at.advised
    && (e.work != Final ==> UnderLease(e, q))
  }

  // From `start` on, a first part of these graphs was computed, in turn, each covered.
  ghost predicate Ran(start: Moment, was: seq<Compute>, now: seq<Compute>, works: seq<Work>, q: Request) {
    && was <= now && |now| <= |was| + |works|
    && forall k | |was| <= k < |now| ::
         now[k].work == works[k - |was|] && Covered(now[k], q) && Later(start, now[k].at)
  }

  lemma RanNothing(start: Moment, log: seq<Compute>, works: seq<Work>, q: Request)
    ensures Ran(start, log, log, works, q)
  {
  }

  lemma RanOne(start: Moment, was: seq<Compute>, e: Compute, q: Request)
    requires Covered(e, q) && Later(start, e.at)
    ensures Ran(start, was, was + [e], [e.work], q)
  {
    hide Covered, Later;
  }

  // All of some graphs, then a first part of others.
  lemma RanStill(a: Moment, b: Moment, was: seq<Compute>, mid: seq<Compute>, now: seq<Compute>, front: seq<Work>,
                 back: seq<Work>, q: Request)
    requires Ran(a, was, mid, front, q) && |mid| == |was| + |front| && Ran(b, mid, now, back, q) && Later(a, b)
    ensures Ran(a, was, now, front + back, q)
  {
    hide Covered, Later;
    forall k | |was| <= k < |now|
      ensures now[k].work == (front + back)[k - |was|] && Covered(now[k], q) && Later(a, now[k].at)
    {
      if k < |mid| { assert now[k] == mid[k]; } else { LaterStill(a, b, now[k].at); }
    }
  }

  lemma RanPart(start: Moment, was: seq<Compute>, now: seq<Compute>, works: seq<Work>, more: seq<Work>, q: Request)
    requires Ran(start, was, now, works, q) && works <= more
    ensures Ran(start, was, now, more, q)
  {
    hide Covered, Later;
  }

  // An active lease is covered, whoever holds it.
  lemma LeaseAdvised(c: Coordinator, id: nat)
    requires c.Valid()
    ensures c.page > 0 && TouchedBytes(c.common, c.mapping, c.page) <= c.advised
    ensures id in c.active ==> TouchedBytes(c.active[id].ranges, c.mapping, c.page) <= c.advised
  {
    hide Touched, BooksOk, Accounted, LeasesOk, CountersOk;
    assert UnionBytes(c.CurrentBooks(), c.mapping, c.page) <= c.advised;
    forall b | b in TouchedBytes(c.common, c.mapping, c.page) ensures b in c.advised {
      assert b in UnionBytes(c.CurrentBooks(), c.mapping, c.page);
    }
    if id in c.active {
      forall b | b in TouchedBytes(c.active[id].ranges, c.mapping, c.page) ensures b in c.advised {
        assert b in UnionBytes(c.CurrentBooks(), c.mapping, c.page);
      }
    }
  }

  lemma HeldCovers(lease: Lease, work: Work, q: Request)
    requires lease.owner.Valid() && Held(lease, lease.owner, q.me, q.since)
    requires q.mapping == lease.owner.mapping && q.page == lease.owner.page
    requires q.page > 0 && Reads(q, work, lease.owner.active[lease.id].ranges)
    ensures Covered(Compute(work, lease.id, lease.owner.Now()), q)
  {
    hide Reads, Coordinator.Valid;
    HeldActive(lease, q.me, q.since);
    LeaseAdvised(lease.owner, lease.id);
  }

  // ---- A request's graphs, in turn ----

  function LayerWorks(l: nat, n: nat): (works: seq<Work>)
    ensures |works| == n && forall g | 0 <= g < n :: works[g] == Group(l, g)
  {
    seq(n, g requires 0 <= g < n => Group(l, g))
  }

  function LayersWorks(layers: seq<LayerPlan>, n: nat): (works: seq<Work>)
    requires n <= |layers|
    ensures |works| == GroupCount(layers[..n])
  {
    if n == 0 then []
    else
      assert layers[..n][..n - 1] == layers[..n - 1];
      LayersWorks(layers, n - 1) + LayerWorks(n - 1, |layers[n - 1].runs|)
  }

  lemma {:induction false} LayersGrow(layers: seq<LayerPlan>, a: nat, b: nat)
    requires a <= b <= |layers|
    ensures LayersWorks(layers, a) <= LayersWorks(layers, b)
    decreases b
  {
    if a < b { LayersGrow(layers, a, b - 1); }
  }

  // The token lookup, every group of every layer, the end.
  function SubbatchWorks(m: Loaded, ids: seq<int>): (works: seq<Work>)
    ensures |works| == PhaseCount(m) + 1
  {
    assert m.layers[..|m.layers|] == m.layers;
    [TokenRows(ids)] + LayersWorks(m.layers, |m.layers|) + [Final]
  }

  // While a group is computed, every page its units' weights lie on is advised; while
  // tokens are looked up, every page of their rows.
  lemma WeightsStay(e: Compute, q: Request, raw: seq<seq<Range>>)
    requires Covered(e, q) && e.work.Group? && PagesOf(q.m.layers[e.work.layer], raw, q.mapping, q.page)
    ensures var (runs, g) := (q.m.layers[e.work.layer].runs, e.work.group);
      && g < |runs| && Slots.Start(runs, g) <= Slots.Start(runs, g + 1) <= |raw|
      && TouchedBytes(RawOf(raw, Slots.Start(runs, g), Slots.Start(runs, g + 1)), q.mapping, q.page) <= e.at.advised
  {
    var p, g := q.m.layers[e.work.layer], e.work.group;
    assert GroupPages(p.runs, p.ranges[g], raw, q.mapping, q.page, g);
    PagesTouched(p.ranges[g], RawOf(raw, Slots.Start(p.runs, g), Slots.Start(p.runs, g + 1)), q.mapping, q.page);
  }

  lemma RowsStay(e: Compute, q: Request)
    requires Covered(e, q) && e.work.TokenRows?
    ensures forall i | 0 <= i < |e.work.ids| :: e.work.ids[i] >= 0
    ensures TouchedBytes(Ranges.Rows(q.m.tokenOffset, q.m.rowStride, e.work.ids), q.mapping, q.page) <= e.at.advised
  {
    PagesTouched(e.at.books.active[e.lease].ranges, Ranges.Rows(q.m.tokenOffset, q.m.rowStride, e.work.ids),
                 q.mapping, q.page);
  }

  // The page runs of some ranges touch every page the ranges touch.
  lemma PagesTouched(out: seq<Range>, ranges: seq<Range>, mapping: nat, page: nat)
    requires page > 0 && Coalesced(out, ranges, mapping, page)
    ensures TouchedBytes(ranges, mapping, page) <= TouchedBytes(out, mapping, page)
  {
    hide Touched, Canonical;
    forall b | b in TouchedBytes(ranges, mapping, page) ensures b in TouchedBytes(out, mapping, page) {
      assert Covers(out, b);
      CoveredTouched(out, b, page);
    }
  }

  lemma CoveredTouched(rs: seq<Range>, b: nat, page: nat)
    requires page > 0 && Covers(rs, b)
    ensures Touched(rs, b, page)
  {
    var i :| 0 <= i < |rs| && Inside(rs[i], b);
    assert Touches(rs[i], b, page);
  }
}
