// The streaming run of a whole stack: every layer's units, cut into groups by any
// preset, give the value the eager graph gives, whatever the operators mean.
module StreamingStack {
  import opened Prelude
  import opened Slots
  import opened SlotRuns
  import opened Partition
  import opened Architectures

  function UnitOf<V>(alg: Algebra<V>, f: Family, i: nat, layer: nat, g: Given): Unit<V>
    requires i < UnitCount(f)
  {
    Unit(UnitSlotsOf(f, i),
         (s: seq<V>) => if |s| == |UnitSlotsOf(f, i).inputs| then Some(Build(alg, f, i, layer, g, s)) else None)
  }

  function UnitsOf<V>(alg: Algebra<V>, f: Family, layer: nat, g: Given): (units: seq<Unit<V>>)
    ensures |units| == UnitCount(f) && forall i | 0 <= i < |units| :: units[i] == UnitOf(alg, f, i, layer, g)
  {
    seq(UnitCount(f), i requires 0 <= i < UnitCount(f) => UnitOf(alg, f, i, layer, g))
  }

  // ---- The units, one by one, make the block ----

  lemma UnitRuns<V(0)>(alg: Algebra<V>, f: Family, i: nat, layer: nat, g: Given, env: Env<V>)
    requires i < UnitCount(f) && |env| == SlotCount(f) && AllHeld(env, UnitSlotsOf(f, i).inputs)
    requires Below(UnitSlotsOf(f, i).outputs, |env|)
    ensures RunUnit(UnitOf(alg, f, i, layer, g), env)
         == Ok(Bind(env, UnitSlotsOf(f, i).outputs, Build(alg, f, i, layer, g, Gather(env, UnitSlotsOf(f, i).inputs))))
  {
    hide Build, UnitSlotsOf;
  }

  lemma BindLast<V>(env: Env<V>, ids: seq<Slot>, vs: seq<V>, a: Slot, x: V)
    requires |ids| == |vs| && Below(ids, |env|) && a < |env|
    ensures Below(ids + [a], |env|) && Bind(env, ids + [a], vs + [x]) == Bind(env, ids, vs)[a := Some(x)]
  {
    assert (ids + [a])[..|ids|] == ids && (vs + [x])[..|vs|] == vs;
  }

  lemma BindOne<V>(env: Env<V>, a: Slot, x: V)
    requires a < |env|
    ensures Bind(env, [a], [x]) == env[a := Some(x)]
  {
    BindLast(env, [], [], a, x);
    assert [] + [a] == [a] && [] + [x] == [x];
    assert Bind(env, [], []) == env;
  }

  lemma BindThree<V>(env: Env<V>, a: Slot, b: Slot, c: Slot, x: V, y: V, z: V)
    requires a < |env| && b < |env| && c < |env|
    ensures Bind(env, [a, b, c], [x, y, z]) == env[a := Some(x)][b := Some(y)][c := Some(z)]
  {
    hide Bind;
    BindOne(env, a, x);
    var both, slots, pair, values := [a, b], [a, b, c], [x, y], [x, y, z];
    BindLast(env, [a], [x], b, y);
    assert [a] + [b] == both && [x] + [y] == pair;
    BindLast(env, both, pair, c, z);
    assert both + [c] == slots && pair + [z] == values;
  }

  // Units 0 to i, then unit i.
  lemma RunNextUnit<V(0)>(alg: Algebra<V>, f: Family, i: nat, layer: nat, g: Given, start: Env<V>, env: Env<V>)
    requires i < UnitCount(f) && |env| == |start| == SlotCount(f) && AllHeld(env, UnitSlotsOf(f, i).inputs)
    requires Fit(UnitsOf(alg, f, layer, g), |start|) && RunUnits(UnitsOf(alg, f, layer, g), 0, i, start) == Ok(env)
    ensures Below(UnitSlotsOf(f, i).outputs, |env|)
    ensures RunUnits(UnitsOf(alg, f, layer, g), 0, i + 1, start)
         == Ok(Bind(env, UnitSlotsOf(f, i).outputs, Build(alg, f, i, layer, g, Gather(env, UnitSlotsOf(f, i).inputs))))
  {
    hide Build;
    var units := UnitsOf(alg, f, layer, g);
    assert units[i].slots == UnitSlotsOf(f, i);
    UnitRuns(alg, f, i, layer, g, env);
    hide RunUnit;
  }

  lemma UnitsFit<V>(alg: Algebra<V>, f: Family, layer: nat, g: Given)
    ensures Fit(UnitsOf(alg, f, layer, g), SlotCount(f))
  {
    hide Build;
    var units := UnitsOf(alg, f, layer, g);
    forall i | 0 <= i < |units|
      ensures Below(units[i].slots.inputs, SlotCount(f)) && Below(units[i].slots.outputs, SlotCount(f))
    {
      assert units[i].slots == UnitSlotsOf(f, i);
    }
  }

  lemma NothingRun<V(0)>(units: seq<Unit<V>>, env: Env<V>)
    requires Fit(units, |env|)
    ensures RunUnits(units, 0, 0, env) == Ok(env)
  {
  }

  // The first half of a BERT layer leaves the attention result in slot 4.
  lemma BertHalf<V(0)>(alg: Algebra<V>, layer: nat, g: Given, env: Env<V>, x: V) returns (after: Env<V>, xa: V)
    requires |env| == 6 && env[0] == Some(x) && Fit(UnitsOf(alg, Bert, layer, g), 6)
    ensures RunUnits(UnitsOf(alg, Bert, layer, g), 0, 2, env) == Ok(after) && |after| == 6 && after[4] == Some(xa)
    ensures xa == BertAttended(alg, x, layer, g)
  {
    hide UnitsOf, RunUnits, Fit, Bind, BertOutput;
    NothingRun(UnitsOf(alg, Bert, layer, g), env);
    RunNextUnit(alg, Bert, 0, layer, g, env, env);
    var q, k, v := alg.biased(x, layer, "attn_q.weight", "attn_q.bias"),
                   alg.biased(x, layer, "attn_k.weight", "attn_k.bias"),
      alg.biased(x, layer, "attn_v.weight", "attn_v.bias");
    BindThree(env, 1, 2, 3, q, k, v);
    var e1 := env[1 := Some(q)][2 := Some(k)][3 := Some(v)];
    RunNextUnit(alg, Bert, 1, layer, g, env, e1);
    xa := BertOutput(alg, q, k, v, x, layer, g);
    BindOne(e1, 4, xa);
    after := e1[4 := Some(xa)];
  }

  lemma BertBlock<V(0)>(alg: Algebra<V>, layer: nat, g: Given, env: Env<V>, x: V)
    requires |env| == 6 && env[0] == Some(x) && Fit(UnitsOf(alg, Bert, layer, g), 6)
    ensures var r := RunUnits(UnitsOf(alg, Bert, layer, g), 0, 4, env);
      r.Ok? && r.value[0] == Some(Block(alg, Bert, x, layer, g))
  {
    hide UnitsOf, RunUnits, Fit, Bind, BertAttended, BertUp, BertDown;
    var e2, xa := BertHalf(alg, layer, g, env, x);
    RunNextUnit(alg, Bert, 2, layer, g, env, e2);
    BindOne(e2, 5, BertUp(alg, xa, layer));
    var e3 := e2[5 := Some(BertUp(alg, xa, layer))];
    RunNextUnit(alg, Bert, 3, layer, g, env, e3);
    BindOne(e3, 0, BertDown(alg, BertUp(alg, xa, layer), xa, layer));
  }

  // The first half of a Gemma layer leaves the attention result in slot 6.
  lemma GemmaHalf<V(0)>(alg: Algebra<V>, layer: nat, g: Given, env: Env<V>, x: V) returns (after: Env<V>, x1: V)
    requires |env| == 10 && env[0] == Some(x) && Fit(UnitsOf(alg, Gemma3, layer, g), 10)
    ensures RunUnits(UnitsOf(alg, Gemma3, layer, g), 0, 4, env) == Ok(after) && |after| == 10
    ensures after[0] == Some(x) && after[6] == Some(x1) && x1 == GemmaAttended(alg, x, layer, g)
  {
    hide UnitsOf, RunUnits, Fit, Bind, GqaCore, GatedUp;
    NothingRun(UnitsOf(alg, Gemma3, layer, g), env);
    RunNextUnit(alg, Gemma3, 0, layer, g, env, env);
    var h := alg.rmsNorm(x, layer, "attn_norm.weight");
    BindOne(env, 1, h);
    var e1 := env[1 := Some(h)];
    RunNextUnit(alg, Gemma3, 1, layer, g, env, e1);
    var q, k, v := alg.linear(h, layer, "attn_q.weight"), alg.linear(h, layer, "attn_k.weight"),
                   alg.linear(h, layer, "attn_v.weight");
    BindThree(e1, 2, 3, 4, q, k, v);
    var e2 := e1[2 := Some(q)][3 := Some(k)][4 := Some(v)];
    RunNextUnit(alg, Gemma3, 2, layer, g, env, e2);
    var core := GqaCore(alg, q, k, v, layer, g);
    BindOne(e2, 5, core);
    var e3 := e2[5 := Some(core)];
    RunNextUnit(alg, Gemma3, 3, layer, g, env, e3);
    x1 := alg.add(x, alg.rmsNorm(core, layer, "post_attention_norm.weight"));
    BindOne(e3, 6, x1);
    after := e3[6 := Some(x1)];
  }

  lemma GemmaBlock<V(0)>(alg: Algebra<V>, layer: nat, g: Given, env: Env<V>, x: V)
    requires |env| == 10 && env[0] == Some(x) && Fit(UnitsOf(alg, Gemma3, layer, g), 10)
    ensures var r := RunUnits(UnitsOf(alg, Gemma3, layer, g), 0, 8, env);
      r.Ok? && r.value[0] == Some(Block(alg, Gemma3, x, layer, g))
  {
    hide UnitsOf, RunUnits, Fit, Bind, GatedUp, GemmaAttended;
    var e4, x1 := GemmaHalf(alg, layer, g, env, x);
    RunNextUnit(alg, Gemma3, 4, layer, g, env, e4);
    var n := alg.rmsNorm(x1, layer, "ffn_norm.weight");
    BindOne(e4, 7, n);
    var e5 := e4[7 := Some(n)];
    RunNextUnit(alg, Gemma3, 5, layer, g, env, e5);
    var up := GatedUp(alg, n, layer);
    BindOne(e5, 8, up);
    var e6 := e5[8 := Some(up)];
    RunNextUnit(alg, Gemma3, 6, layer, g, env, e6);
    var down := alg.linear(up, layer, "ffn_down.weight");
    BindOne(e6, 9, down);
    var e7 := e6[9 := Some(down)];
    RunNextUnit(alg, Gemma3, 7, layer, g, env, e7);
    BindOne(e7, 0, alg.add(x1, alg.rmsNorm(down, layer, "post_ffw_norm.weight")));
  }

  // The units of a layer compute its block.
  lemma UnitsMakeBlock<V(0)>(alg: Algebra<V>, f: Family, layer: nat, g: Given, env: Env<V>, x: V)
    requires |env| == SlotCount(f) && env[RESIDUAL] == Some(x) && Fit(UnitsOf(alg, f, layer, g), |env|)
    ensures var r := RunUnits(UnitsOf(alg, f, layer, g), 0, UnitCount(f), env);
      r.Ok? && r.value[RESIDUAL] == Some(Block(alg, f, x, layer, g))
  {
    hide RunUnits, Fit, Block;
    match f case Gemma3 => GemmaBlock(alg, layer, g, env, x); case Bert => BertBlock(alg, layer, g, env, x);
  }

  // ---- Cut into groups ----

  // Each unit sees the inputs its own group is given.
  function GroupedUnits<V>(alg: Algebra<V>, f: Family, layer: nat, runs: seq<nat>, padded: bool,
                           grid: bool): (units: seq<Unit<V>>)
    requires Total(runs) <= UnitCount(f)
    ensures |units| == Total(runs)
  {
    if runs == [] then []
    else
      var front := runs[..|runs| - 1];
      var (from, to) := (Total(front), Total(runs));
      GroupedUnits(alg, f, layer, front, padded, grid)
        + seq(to - from,
              j requires 0 <= j < to - from => UnitOf(alg, f, from + j, layer, GroupGiven(f, from, to, padded, grid)))
  }

  ghost predicate BuildsAlike<V(!new)>(a: Unit<V>, b: Unit<V>) {
    a.slots == b.slots && forall s: seq<V> :: a.build(s) == b.build(s)
  }

  lemma {:induction false} GroupedAlike<V(!new)>(
      alg: Algebra<V>, f: Family, layer: nat, runs: seq<nat>, padded: bool, grid: bool, i: nat)
    requires Total(runs) <= UnitCount(f) && i < Total(runs)
    ensures BuildsAlike(GroupedUnits(alg, f, layer, runs, padded, grid)[i],
                        UnitOf(alg, f, i, layer, EagerGiven(f, padded, grid)))
  {
    hide Build, UnitSlotsOf, GroupGiven, EagerGiven, BuildsAlike;
    var front := runs[..|runs| - 1];
    var from, to := Total(front), Total(runs);
    if i < from {
      GroupedAlike(alg, f, layer, front, padded, grid, i);
    } else {
      assert GroupedUnits(alg, f, layer, runs, padded, grid)[i]
          == UnitOf(alg, f, i, layer, GroupGiven(f, from, to, padded, grid));
      UnitAlike(alg, f, from, to, i, layer, padded, grid);
    }
  }

  lemma UnitAlike<V(!new)>(alg: Algebra<V>, f: Family, from: nat, to: nat, i: nat, layer: nat, padded: bool, grid: bool)
    requires from <= i < to <= UnitCount(f)
    ensures BuildsAlike(UnitOf(alg, f, i, layer, GroupGiven(f, from, to, padded, grid)),
                        UnitOf(alg, f, i, layer, EagerGiven(f, padded, grid)))
  {
    hide Build, GroupGiven, EagerGiven;
    forall s: seq<V> | |s| == |UnitSlotsOf(f, i).inputs|
      ensures Build(alg, f, i, layer, GroupGiven(f, from, to, padded, grid), s)
           == Build(alg, f, i, layer, EagerGiven(f, padded, grid), s)
    {
      SameBuild(alg, f, from, to, i, layer, padded, grid, s);
    }
  }

  lemma {:induction false} RunAlike<V(0, !new)>(a: seq<Unit<V>>, b: seq<Unit<V>>, n: nat, env: Env<V>)
    requires n <= |a| == |b| && Fit(a, |env|) && Fit(b, |env|) && forall i | 0 <= i < |a| :: BuildsAlike(a[i], b[i])
    ensures RunUnits(a, 0, n, env) == RunUnits(b, 0, n, env)
  {
    if n > 0 {
      RunAlike(a, b, n - 1, env);
      assert BuildsAlike(a[n - 1], b[n - 1]);
    }
  }

  // ---- The plans resolve, and define before they use ----

  // The unit that writes a slot other than the residual one.
  function Producer(f: Family, id: Slot): nat {
    match f
    case Gemma3 => if id <= 1 then 0 else if id <= 4 then 1 else id - 3
    case Bert => if id <= 3 then 0 else id - 3
  }

  lemma ReadsProduced(f: Family, i: nat, id: Slot)
    requires i < UnitCount(f) && id in UnitSlotsOf(f, i).inputs && id != RESIDUAL
    ensures Producer(f, id) < i && id in UnitSlotsOf(f, Producer(f, id)).outputs
  {
  }

  lemma NextReads(f: Family, i: nat)
    requires i < UnitCount(f)
    ensures UnitSlotsOf(f, i).outputs != []
    ensures var id := UnitSlotsOf(f, i).outputs[0];
      if i + 1 == UnitCount(f) then id == RESIDUAL else id in UnitSlotsOf(f, i + 1).inputs
  {
  }

  ghost predicate PlanSlots(f: Family, us: seq<UnitSlots>) {
    |us| == UnitCount(f) && forall i | 0 <= i < |us| :: us[i] == UnitSlotsOf(f, i)
  }

  lemma PlanDefines(f: Family, us: seq<UnitSlots>)
    requires PlanSlots(f, us)
    ensures DefinedBeforeUse(us, RESIDUAL)
  {
    hide UnitSlotsOf;
    forall i, id | 0 <= i < |us| && id in us[i].inputs && id != RESIDUAL ensures Produced(us, 0, i, id) {
      ReadsProduced(f, i, id);
      assert id in us[Producer(f, id)].outputs;
    }
  }

  // Every run of a plan writes something the next run, or the layer's result, needs.
  lemma PlanUseful(f: Family, us: seq<UnitSlots>, begin: nat, end: nat)
    requires PlanSlots(f, us) && begin < end <= |us|
    ensures SomeExport(us, begin, end, RESIDUAL)
  {
    hide UnitSlotsOf;
    NextReads(f, end - 1);
    assert us[end - 1] == UnitSlotsOf(f, end - 1);
    var id := us[end - 1].outputs[0];
    assert id in us[end - 1].outputs && Produced(us, begin, end, id);
    if end < |us| { assert id in us[end].inputs && Consumed(us, end, id); }
    assert Exported(us, begin, end, RESIDUAL, id);
  }

  lemma PlanRunsUseful(f: Family, us: seq<UnitSlots>, runs: seq<nat>)
    requires PlanSlots(f, us) && Cut(runs, |us|)
    ensures forall g | 0 <= g < |runs| :: Useful(us, runs, RESIDUAL, g)
  {
    forall g | 0 <= g < |runs| ensures Useful(us, runs, RESIDUAL, g) {
      TotalNext(runs, g);
      TotalPrefix(runs, g + 1);
      PlanUseful(f, us, Start(runs, g), Start(runs, g + 1));
    }
  }

  // ---- The runner ----

  function Stages(f: Family): seq<Stage> { seq(UnitCount(f), i requires 0 <= i => StageOf(f, i)) }

  // What the units of a layer exchange, cut this way.
  ghost predicate LayerCut(f: Family, runs: seq<nat>, groups: seq<GroupSlots>) {
    Cut(runs, UnitCount(f)) && GroupsFor(PlanOf(f), runs, RESIDUAL, groups)
  }

  function PlanOf(f: Family): (us: seq<UnitSlots>)
    ensures |us| == UnitCount(f) && forall i | 0 <= i < |us| :: us[i] == UnitSlotsOf(f, i)
  {
    seq(UnitCount(f), i requires 0 <= i < UnitCount(f) => UnitSlotsOf(f, i))
  }

  // Resolve a layer's groups from its cut; plans never make a useless group.
  method ResolveLayer(f: Family, runs: seq<nat>) returns (groups: seq<GroupSlots>)
    requires Cut(runs, UnitCount(f))
    ensures LayerCut(f, runs, groups)
  {
    hide UnitSlotsOf, GroupsFor, Useful;
    PlanRunsUseful(f, PlanOf(f), runs);
    var r := ResolveGroupSlots(PlanOf(f), runs, RESIDUAL);
    groups := r.value;
  }

  // What a runner may rely on, group after group.
  lemma LayerReady<V(0, !new)>(alg: Algebra<V>, f: Family, layer: nat, runs: seq<nat>, groups: seq<GroupSlots>,
                               padded: bool, grid: bool)
    requires LayerCut(f, runs, groups)
    ensures var units := GroupedUnits(alg, f, layer, runs, padded, grid);
      && Fit(units, SlotCount(f)) && GroupsFor(SlotsOf(units), runs, RESIDUAL, groups)
      && Total(runs) == |units| == UnitCount(f)
  {
    hide UnitSlotsOf, GroupsFor, Fit;
    GroupedSlots(alg, f, layer, runs, padded, grid);
    assert SlotsOf(GroupedUnits(alg, f, layer, runs, padded, grid)) == PlanOf(f);
    GroupedFit(alg, f, layer, runs, padded, grid);
  }

  // However a layer is cut, all its units run, and they make the block.
  lemma LayerMakes<V(0, !new)>(alg: Algebra<V>, f: Family, layer: nat, runs: seq<nat>, padded: bool, grid: bool,
                               start: Env<V>, x: V)
    requires Cut(runs, UnitCount(f)) && |start| == SlotCount(f) && start[RESIDUAL] == Some(x)
    requires Fit(GroupedUnits(alg, f, layer, runs, padded, grid), SlotCount(f))
    ensures var r := RunUnits(GroupedUnits(alg, f, layer, runs, padded, grid), 0, UnitCount(f), start);
      r.Ok? && r.value[RESIDUAL] == Some(Block(alg, f, x, layer, EagerGiven(f, padded, grid)))
  {
    hide UnitSlotsOf, GroupedUnits, UnitsOf, Fit, Block, RunUnits, EagerGiven;
    UnitsFit(alg, f, layer, EagerGiven(f, padded, grid));
    GroupedRuns(alg, f, layer, runs, padded, grid, start);
    UnitsMakeBlock(alg, f, layer, EagerGiven(f, padded, grid), start, x);
  }

  // One layer, cut and run through the store.
  method StreamLayer<V(0, !new)>(store: SlotStore<V>, alg: Algebra<V>, f: Family, layer: nat, runs: seq<nat>,
                                 padded: bool, grid: bool, ghost x: V)
    requires Cut(runs, UnitCount(f)) && |store.entries| == SlotCount(f) && store.entries[RESIDUAL] == Some(x)
    modifies store
    ensures |store.entries| == SlotCount(f)
    ensures store.entries[RESIDUAL] == Some(Block(alg, f, x, layer, EagerGiven(f, padded, grid)))
  {
    hide GroupedUnits, Block, RunUnits, Fit, GroupsFor, UnitSlotsOf, Cut, LayerCut;
    var groups := ResolveLayer(f, runs);
    LayerReady(alg, f, layer, runs, groups, padded, grid);
    LayerMakes(alg, f, layer, runs, padded, grid, store.entries, x);
    var failure := RunLayer(store, GroupedUnits(alg, f, layer, runs, padded, grid), runs, groups, RESIDUAL);
  }

  lemma GroupedSlots<V(!new)>(alg: Algebra<V>, f: Family, layer: nat, runs: seq<nat>, padded: bool, grid: bool)
    requires Cut(runs, UnitCount(f))
    ensures PlanSlots(f, SlotsOf(GroupedUnits(alg, f, layer, runs, padded, grid)))
  {
    var units := GroupedUnits(alg, f, layer, runs, padded, grid);
    hide GroupedUnits, UnitSlotsOf, Build;
    forall i | 0 <= i < |units| ensures units[i].slots == UnitSlotsOf(f, i) {
      GroupedAlike(alg, f, layer, runs, padded, grid, i);
    }
  }

  lemma GroupedFit<V(!new)>(alg: Algebra<V>, f: Family, layer: nat, runs: seq<nat>, padded: bool, grid: bool)
    requires Cut(runs, UnitCount(f))
    ensures Fit(GroupedUnits(alg, f, layer, runs, padded, grid), SlotCount(f))
  {
    hide Build, UnitSlotsOf, GroupedUnits;
    var units, plain := GroupedUnits(alg, f, layer, runs, padded, grid),
                        UnitsOf(alg, f, layer, EagerGiven(f, padded, grid));
    UnitsFit(alg, f, layer, EagerGiven(f, padded, grid));
    forall i | 0 <= i < |units|
      ensures Below(units[i].slots.inputs, SlotCount(f)) && Below(units[i].slots.outputs, SlotCount(f))
    {
      assert plain[i].slots == UnitSlotsOf(f, i);
      GroupedAlike(alg, f, layer, runs, padded, grid, i);
    }
  }

  lemma GroupedRuns<V(0, !new)>(alg: Algebra<V>, f: Family, layer: nat, runs: seq<nat>, padded: bool, grid: bool,
                                env: Env<V>)
    requires Cut(runs, UnitCount(f)) && |env| == SlotCount(f)
    requires Fit(GroupedUnits(alg, f, layer, runs, padded, grid), |env|)
    requires Fit(UnitsOf(alg, f, layer, EagerGiven(f, padded, grid)), |env|)
    ensures RunUnits(GroupedUnits(alg, f, layer, runs, padded, grid), 0, UnitCount(f), env)
         == RunUnits(UnitsOf(alg, f, layer, EagerGiven(f, padded, grid)), 0, UnitCount(f), env)
  {
    hide GroupedUnits, BuildsAlike, Fit, RunUnits, UnitOf;
    var units, plain := GroupedUnits(alg, f, layer, runs, padded, grid),
                        UnitsOf(alg, f, layer, EagerGiven(f, padded, grid));
    forall i | 0 <= i < |units| ensures BuildsAlike(units[i], plain[i]) {
      GroupedAlike(alg, f, layer, runs, padded, grid, i);
    }
    RunAlike(units, plain, UnitCount(f), env);
  }

  predicate KnownPreset(preset: string) {
    || preset == "layer" || preset == "unit" || preset == "attn-ffn"
    || (IsBudget(preset) && Digits(preset[|"budget:"|..]) && Decimal(preset[|"budget:"|..]) > 0)
  }

  // Cut by stage, a layer is its attention units and then its feed-forward units.
  lemma StageCut(f: Family, runs: seq<nat>)
    ensures StageRuns(Stages(f), runs) <==> runs == match f case Gemma3 => [4, 4] case Bert => [2, 2]
  {
    hide StageRuns;
    HalvesAreStages(f);
    if StageRuns(Stages(f), runs) {
      StageRunsUnique(Stages(f), runs, match f case Gemma3 => [4, 4] case Bert => [2, 2]);
    }
  }

  lemma HalvesAreStages(f: Family)
    ensures StageRuns(Stages(f), match f case Gemma3 => [4, 4] case Bert => [2, 2])
  {
    var half := match f case Gemma3 => 4 case Bert => 2;
    var runs := [half, half];
    assert runs[..0] == [] && runs[..1] == [half] && [half][..0] == [];
    assert Total(runs[..0]) == 0 && Total(runs[..1]) == half && Total(runs) == 2 * half;
    assert StageRun(Stages(f), runs, 0) && StageRun(Stages(f), runs, 1);
  }

  // The whole stack through the store, under any preset the partitioner knows, for any
  // meaning of the operators. Over terms it says that the graph is the same.
  method Stream<V(0, !new)>(alg: Algebra<V>, f: Family, layers: nat, weights: seq<seq<nat>>, preset: string,
                            padded: bool, grid: bool)
    returns (r: Result<V, PartitionError>)
    requires layers > 0 && |weights| == layers
    requires forall l | 0 <= l < layers ::
      |weights[l]| == UnitCount(f) && forall i | 0 <= i < |weights[l]| :: weights[l][i] <= SIZE_MAX
    ensures r.Ok? <==> KnownPreset(preset)
    ensures r.Ok? ==> r.value == Eager(alg, f, layers, EagerGiven(f, padded, grid))
  {
    hide Block, Digits, Decimal, Greedy, StageRuns, Cut, EagerGiven;
    var store := new SlotStore<V>();
    store.Resize(SlotCount(f));
    store.InvalidateAll();
    store.Download(RESIDUAL, EmbeddingPhase(alg, f, EmbeddingGiven(f)));
    ghost var eager := EagerGiven(f, padded, grid);
    ghost var x := EmbeddingPhase(alg, f, eager);
    SameEmbedding(alg, f, padded, grid);
    for layer := 0 to layers
      invariant fresh(store) && |store.entries| == SlotCount(f)
      invariant x == EagerLayers(alg, f, EmbeddingPhase(alg, f, eager), layer, eager)
      invariant store.entries[RESIDUAL] == Some(x)
      invariant layer > 0 ==> KnownPreset(preset)
    {
      var runs := PartitionRuns(weights[layer], Stages(f), preset);
      if runs.Err? { return Err(runs.error); }
      StreamLayer(store, alg, f, layer, runs.value, padded, grid, x);
      x := Block(alg, f, x, layer, eager);
    }
    r := Ok(FinalPhase(alg, f, store.entries[RESIDUAL].value));
  }

  // Over the free algebra a value is its graph: streaming builds the eager graph.
  method StreamGraph(f: Family, layers: nat, weights: seq<seq<nat>>, preset: string, padded: bool, grid: bool)
    returns (r: Result<Term, PartitionError>)
    requires layers > 0 && |weights| == layers
    requires forall l | 0 <= l < layers ::
      |weights[l]| == UnitCount(f) && forall i | 0 <= i < |weights[l]| :: weights[l][i] <= SIZE_MAX
    ensures r.Ok? <==> KnownPreset(preset)
    ensures r.Ok? ==> r.value == Eager(Terms(), f, layers, EagerGiven(f, padded, grid))
  {
    hide Eager, Terms, EagerGiven, KnownPreset;
    r := Stream(Terms(), f, layers, weights, preset, padded, grid);
  }

  lemma SameEmbedding<V>(alg: Algebra<V>, f: Family, padded: bool, grid: bool)
    ensures EmbeddingPhase(alg, f, EmbeddingGiven(f)) == EmbeddingPhase(alg, f, EagerGiven(f, padded, grid))
  {
  }
}
