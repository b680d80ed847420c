// A loaded streaming model: every layer cut into groups, each with the pages its weights
// lie on, and the coordinator with the common pages retained.
module StreamingModel {
  import opened Prelude
  import opened Ranges
  import opened Residency
  import opened Partition
  import Forward = StreamingForward
  import Net = Architectures
  import Slots
  import Stack = StreamingStack

  // One layer's cut, what its groups exchange, and the pages each of them leases.
  datatype LayerPlan =
    LayerPlan(runs: seq<nat>, groups: seq<Slots.GroupSlots>, keys: seq<string>, ranges: seq<seq<Range>>)

  datatype Loaded = Loaded(
    forward: Forward.Model, tokenOffset: nat, tokenBytes: nat, rowStride: nat, rowCount: int, layers: seq<LayerPlan>)

  ghost predicate LayerPlanOk(f: Net.Family, p: LayerPlan, mapping: nat) {
    && Stack.LayerCut(f, p.runs, p.groups) && |p.keys| == |p.ranges| == |p.runs|
    && forall g | 0 <= g < |p.ranges| :: AllWithin(p.ranges[g], mapping)
  }

  ghost predicate LoadedOk(m: Loaded, mapping: nat) {
    && Forward.ModelOk(m.forward) && |m.layers| == m.forward.layers
    && forall l | 0 <= l < |m.layers| :: LayerPlanOk(m.forward.family, m.layers[l], mapping)
  }

  function GroupCount(layers: seq<LayerPlan>): nat {
    if layers == [] then 0 else GroupCount(layers[..|layers| - 1]) + |Last(layers).runs|
  }

  // One phase for the token rows, one per group.
  function PhaseCount(m: Loaded): nat { 1 + GroupCount(m.layers) }

  ghost predicate Leasable(p: LayerPlan) { forall g | 0 <= g < |p.ranges| :: p.ranges[g] != [] }

  ghost predicate AllLeasable(m: Loaded) { forall l | 0 <= l < |m.layers| :: Leasable(m.layers[l]) }

  lemma CutOf(f: Net.Family, p: LayerPlan, mapping: nat)
    requires LayerPlanOk(f, p, mapping)
    ensures Cut(p.runs, Net.UnitCount(f))
  {
  }

  lemma NoGroupsYet(layers: seq<LayerPlan>)
    ensures GroupCount(layers[..0]) == 0 <= GroupCount(layers)
  {
  }

  lemma GroupsGrow(layers: seq<LayerPlan>, l: nat)
    requires l < |layers|
    ensures GroupCount(layers[..l + 1]) == GroupCount(layers[..l]) + |layers[l].runs| <= GroupCount(layers)
  {
    assert layers[..l + 1][..l] == layers[..l];
    GroupsBelow(layers, l + 1);
  }

  lemma {:induction false} GroupsBelow(layers: seq<LayerPlan>, l: nat)
    requires l <= |layers|
    ensures GroupCount(layers[..l]) <= GroupCount(layers)
    decreases |layers| - l
  {
    if l < |layers| {
      assert layers[..l + 1][..l] == layers[..l];
      GroupsBelow(layers, l + 1);
    } else {
      assert layers[..l] == layers;
    }
  }

  // ---- Loading ----

  datatype LoadError = BadPartition(cut: PartitionError) | BadRange(range: RangeError) | NotRetained(failure: Failure)

  // The weights of units[from..to], in turn.
  function RawOf(raw: seq<seq<Range>>, from: nat, to: nat): seq<Range>
    requires from <= to <= |raw|
  {
    if from == to then [] else RawOf(raw, from, to - 1) + raw[to - 1]
  }

  ghost predicate UnitsWithin(raw: seq<seq<Range>>, mapping: nat) {
    forall i | 0 <= i < |raw| :: raw[i] != [] && AllWithin(raw[i], mapping)
  }

  // Each group leases exactly the pages its units' weights lie on.
  ghost predicate PagesOf(p: LayerPlan, raw: seq<seq<Range>>, mapping: nat, page: nat)
    requires page > 0
  {
    && |p.ranges| == |p.runs| && Slots.Total(p.runs) == |raw|
    && forall g | 0 <= g < |p.runs| :: GroupPages(p.runs, p.ranges[g], raw, mapping, page, g)
  }

  ghost predicate GroupPages(runs: seq<nat>, ranges: seq<Range>, raw: seq<seq<Range>>, mapping: nat, page: nat, g: nat)
    requires page > 0 && g < |runs|
  {
    && Slots.Start(runs, g) <= Slots.Start(runs, g + 1) <= |raw|
    && Coalesced(ranges, RawOf(raw, Slots.Start(runs, g), Slots.Start(runs, g + 1)), mapping, page)
  }

  method GatherRaw(raw: seq<seq<Range>>, from: nat, to: nat, ghost mapping: nat) returns (ranges: seq<Range>)
    requires from <= to <= |raw| && UnitsWithin(raw, mapping)
    ensures ranges == RawOf(raw, from, to) && AllWithin(ranges, mapping) && (from < to ==> ranges != [])
  {
    ranges := [];
    for i := from to to
      invariant ranges == RawOf(raw, from, i) && AllWithin(ranges, mapping) && (from < i ==> ranges != [])
    {
      ranges := ranges + raw[i];
    }
  }

  // Some page is touched, so some run of pages is leased.
  lemma SomeRows(out: seq<Range>, ranges: seq<Range>, mapping: nat, page: nat)
    requires page > 0 && Coalesced(out, ranges, mapping, page) && ranges != [] && AllWithin(ranges, mapping)
    ensures out != []
  {
    var b := ranges[0].offset;
    assert Ranges.Within(ranges[0], mapping);
    assert Inside(ranges[0], b) && Touches(ranges[0], b, page);
    assert Covers(out, b);
  }

  method GroupRanges(raw: seq<seq<Range>>, from: nat, to: nat, mapping: nat, page: nat) returns (ranges: seq<Range>)
    requires from < to <= |raw| && Geometry(mapping, page) && mapping <= SIZE_MAX && UnitsWithin(raw, mapping)
    ensures ranges != [] && AllWithin(ranges, mapping) && Coalesced(ranges, RawOf(raw, from, to), mapping, page)
  {
    hide UnitsWithin, AllWithin, Coalesced;
    var gathered := GatherRaw(raw, from, to, mapping);
    var pages := PageAlignAndCoalesce(gathered, mapping, page);
    SomeRows(pages.value, gathered, mapping, page);
    ranges := pages.value;
  }

  method CutLayer(f: Net.Family, weights: seq<nat>, preset: string) returns (runs: Result<seq<nat>, PartitionError>)
    requires |weights| == Net.UnitCount(f) && forall i | 0 <= i < |weights| :: weights[i] <= SIZE_MAX
    ensures runs.Ok? <==> Stack.KnownPreset(preset)
    ensures runs.Ok? ==> Cut(runs.value, Net.UnitCount(f))
  {
    hide Digits, Decimal, Greedy, StageRuns, Cut;
    runs := PartitionRuns(weights, Stack.Stages(f), preset);
  }

  // Cut one layer, resolve what its groups exchange, and find the pages of each.
  method PlanLayer(f: Net.Family, weights: seq<nat>, raw: seq<seq<Range>>, preset: string, mapping: nat, page: nat,
                   key: (nat, nat) -> string)
    returns (r: Result<LayerPlan, PartitionError>)
    requires |weights| == |raw| == Net.UnitCount(f) && forall i | 0 <= i < |weights| :: weights[i] <= SIZE_MAX
    requires Geometry(mapping, page) && mapping <= SIZE_MAX && UnitsWithin(raw, mapping)
    ensures r.Ok? <==> Stack.KnownPreset(preset)
    ensures r.Ok? ==> LayerPlanOk(f, r.value, mapping) && Leasable(r.value) && PagesOf(r.value, raw, mapping, page)
  {
    hide Stack.KnownPreset, IsPowerOfTwo, UnitsWithin, AllWithin, Coalesced, Stack.LayerCut;
    var runs := CutLayer(f, weights, preset);
    if runs.Err? { return Err(runs.error); }
    var groups := Stack.ResolveLayer(f, runs.value);
    var keys: seq<string>, ranges: seq<seq<Range>> := [], [];
    var begin := 0;
    Slots.EmptyTotal(runs.value);
    for g := 0 to |runs.value|
      invariant |keys| == |ranges| == g && begin == Slots.Start(runs.value, g) <= |raw|
      invariant forall g' | 0 <= g' < g :: ranges[g'] != [] && AllWithin(ranges[g'], mapping)
      invariant forall g' | 0 <= g' < g :: GroupPages(runs.value, ranges[g'], raw, mapping, page, g')
    {
      Slots.TotalNext(runs.value, g);
      Slots.TotalPrefix(runs.value, g + 1);
      var end := begin + runs.value[g];
      var pages := GroupRanges(raw, begin, end, mapping, page);
      keys, ranges := keys + [key(begin, end)], ranges + [pages];
      begin := end;
    }
    r := Ok(LayerPlan(runs.value, groups, keys, ranges));
  }

  method PlanLayers(f: Net.Family, weights: seq<seq<nat>>, raw: seq<seq<seq<Range>>>, preset: string, mapping: nat,
                    page: nat, key: (nat, nat, nat) -> string)
    returns (r: Result<seq<LayerPlan>, PartitionError>)
    requires |weights| == |raw| > 0 && Geometry(mapping, page) && mapping <= SIZE_MAX
    requires forall l | 0 <= l < |weights| ::
      |weights[l]| == Net.UnitCount(f) && forall i | 0 <= i < |weights[l]| :: weights[l][i] <= SIZE_MAX
    requires forall l | 0 <= l < |raw| :: |raw[l]| == Net.UnitCount(f) && UnitsWithin(raw[l], mapping)
    ensures r.Ok? <==> Stack.KnownPreset(preset)
    ensures r.Ok? ==> |r.value| == |raw|
    ensures r.Ok? ==> forall l | 0 <= l < |raw| ::
      LayerPlanOk(f, r.value[l], mapping) && Leasable(r.value[l]) && PagesOf(r.value[l], raw[l], mapping, page)
  {
    hide IsPowerOfTwo, UnitsWithin, AllWithin, LayerPlanOk, Leasable, PagesOf, Stack.KnownPreset;
    var layers: seq<LayerPlan> := [];
    for l := 0 to |raw|
      invariant |layers| == l && (l > 0 ==> Stack.KnownPreset(preset))
      invariant forall l' | 0 <= l' < l ::
        LayerPlanOk(f, layers[l'], mapping) && Leasable(layers[l']) && PagesOf(layers[l'], raw[l'], mapping, page)
    {
      var layer := PlanLayer(f, weights[l], raw[l], preset, mapping, page, (from: nat, to: nat) => key(l, from, to));
      if layer.Err? { return Err(layer.error); }
      layers := layers + [layer.value];
    }
    r := Ok(layers);
  }

  // Every layer planned, the common pages retained: the runner may rely on all of it.
  method Load(forward: Forward.Model, tokenOffset: nat, tokenBytes: nat, rowStride: nat, rowCount: int,
              common: seq<Range>, weights: seq<seq<nat>>, raw: seq<seq<seq<Range>>>, preset: string, mapping: nat,
              page: nat, key: (nat, nat, nat) -> string, answers: Answers)
    returns (r: Result<Loaded, LoadError>, c: Coordinator?)
    requires Forward.ModelOk(forward) && |weights| == |raw| == forward.layers > 0
    requires forall l | 0 <= l < |weights| ::
      |weights[l]| == Net.UnitCount(forward.family) && forall i | 0 <= i < |weights[l]| :: weights[l][i] <= SIZE_MAX
    requires forall l | 0 <= l < |raw| :: |raw[l]| == Net.UnitCount(forward.family) && UnitsWithin(raw[l], mapping)
    requires Geometry(mapping, page) && mapping <= SIZE_MAX
    ensures r.Ok? ==> LoadedOk(r.value, mapping) && AllLeasable(r.value) && Stack.KnownPreset(preset)
    ensures r.Ok? ==>
      |r.value.layers| == |raw| && forall l | 0 <= l < |raw| :: PagesOf(r.value.layers[l], raw[l], mapping, page)
    ensures r.Ok? ==>
      && c != null && fresh(c) && c.Valid() && c.mapping == mapping && c.page == page
      && c.CommonCoalesced() && Coalesced(c.common, common, mapping, page) && c.active == map[] && !c.diag.poisoned
    ensures r.Err? ==>
      match r.error
      case BadPartition(_) => !Stack.KnownPreset(preset)
      case BadRange(_) => !AllWithin(common, mapping)
      case NotRetained(failure) => failure == WillNeedFailed && exists n: nat :: !answers(n)
  {
    hide IsPowerOfTwo, UnitsWithin, AllWithin, Coalesced, LayerPlanOk, Leasable, PagesOf, Stack.KnownPreset,
      Coordinator.Valid, Retained, Coordinator.CommonCoalesced, Forward.ModelOk;
    c := null;
    var pages := PageAlignAndCoalesce(common, mapping, page);
    if pages.Err? { return Err(BadRange(pages.error)), null; }
    var layers := PlanLayers(forward.family, weights, raw, preset, mapping, page, key);
    if layers.Err? { return Err(BadPartition(layers.error)), null; }
    var residency := new Coordinator(mapping, page);
    ghost var was := residency.Now();
    var failure := residency.RetainCommon(pages.value, answers);
    if failure.Some? { return Err(NotRetained(failure.value)), null; }
    CommonKept(residency, was, pages.value, common, answers);
    r, c := Ok(Loaded(forward, tokenOffset, tokenBytes, rowStride, rowCount, layers.value)), residency;
  }

  lemma CommonKept(c: Coordinator, was: Moment, pages: seq<Range>, common: seq<Range>, answers: Answers)
    requires c.Valid() && was == Residency.Start() && Retained(was, c.Now(), pages, answers, c.mapping, c.page)
    requires Coalesced(pages, common, c.mapping, c.page) && forall n | 0 <= n < |pages| :: answers(n)
    ensures c.CommonCoalesced() && c.active == map[] && !c.diag.poisoned
    ensures c.common == pages
  {
    hide TouchedBytes, Covers, PageClosed, Canonical, Ledger.BooksOk, Safe, Accounted, LeasesOk, Coalesced;
    assert c.page > 0;
    CoalescedClosed(pages, common, c.mapping, c.page);
    CoalescedCanonical(pages, common, c.mapping, c.page);
  }
}
