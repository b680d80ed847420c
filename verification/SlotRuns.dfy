// Running units over slots: one by one, and group by group through a store that
// only keeps what a group declares. Units may compute anything, or fail.
module SlotRuns {
  import opened Prelude
  import opened Slots

  datatype Unit<!V> = Unit(slots: UnitSlots, build: seq<V> -> Option<seq<V>>)

  // What each slot holds, if anything.
  type Env<V> = seq<Option<V>>

  datatype RunError = Unproduced | BadBuild | LostOutput

  function SlotsOf<V>(units: seq<Unit<V>>): (us: seq<UnitSlots>)
    ensures |us| == |units| && forall i | 0 <= i < |units| :: us[i] == units[i].slots
  {
    seq(|units|, i requires 0 <= i < |units| => units[i].slots)
  }

  predicate Below(ids: seq<Slot>, size: nat) { forall n | 0 <= n < |ids| :: ids[n] < size }

  ghost predicate Fit<V>(units: seq<Unit<V>>, size: nat) {
    forall i | 0 <= i < |units| :: Below(units[i].slots.inputs, size) && Below(units[i].slots.outputs, size)
  }

  // ---- One unit ----

  predicate AllHeld<V(0)>(env: Env<V>, ids: seq<Slot>) {
    forall n | 0 <= n < |ids| :: ids[n] < |env| && env[ids[n]].Some?
  }

  function Gather<V(0)>(env: Env<V>, ids: seq<Slot>): (vs: seq<V>)
    requires AllHeld(env, ids)
    ensures |vs| == |ids| && forall n | 0 <= n < |ids| :: vs[n] == env[ids[n]].value
  {
    seq(|ids|, n requires 0 <= n < |ids| => env[ids[n]].value)
  }

  function Bind<V>(env: Env<V>, ids: seq<Slot>, vs: seq<V>): (r: Env<V>)
    requires |ids| == |vs| && Below(ids, |env|)
    ensures |r| == |env|
    ensures forall id | 0 <= id < |env| :: id !in ids ==> r[id] == env[id]
    ensures forall id | id in ids :: id < |env| && r[id].Some?
  {
    if ids == [] then env
    else
      var n := |ids| - 1;
      assert forall id | id in ids :: id in ids[..n] || id == ids[n];
      Bind(env, ids[..n], vs[..n])[ids[n] := Some(vs[n])]
  }

  // Binding does not look at what was there.
  lemma {:induction false} BindSame<V>(a: Env<V>, b: Env<V>, ids: seq<Slot>, vs: seq<V>)
    requires |a| == |b| && |ids| == |vs| && Below(ids, |a|)
    ensures forall id | id in ids :: id < |a| && Bind(a, ids, vs)[id] == Bind(b, ids, vs)[id]
  {
    if ids != [] {
      var n := |ids| - 1;
      BindSame(a, b, ids[..n], vs[..n]);
      assert forall id | id in ids :: id in ids[..n] || id == ids[n];
    }
  }

  function RunUnit<V(0)>(unit: Unit<V>, env: Env<V>): (r: Result<Env<V>, RunError>)
    requires Below(unit.slots.outputs, |env|)
    ensures r.Ok? ==> |r.value| == |env|
  {
    if !AllHeld(env, unit.slots.inputs) then Err(Unproduced)
    else
      var outs := unit.build(Gather(env, unit.slots.inputs));
      if outs == None || |outs.value| != |unit.slots.outputs| then Err(BadBuild)
      else Ok(Bind(env, unit.slots.outputs, outs.value))
  }

  // units[from..to], one after another.
  function RunUnits<V(0)>(units: seq<Unit<V>>, from: nat, to: nat, env: Env<V>): (r: Result<Env<V>, RunError>)
    requires from <= to <= |units| && Fit(units, |env|)
    ensures r.Ok? ==> |r.value| == |env|
  {
    if from == to then Ok(env)
    else
      match RunUnits(units, from, to - 1, env)
      case Err(e) => Err(e)
      case Ok(before) => RunUnit(units[to - 1], before)
  }

  lemma {:induction false} RunSplit<V(0)>(units: seq<Unit<V>>, from: nat, mid: nat, to: nat, env: Env<V>)
    requires from <= mid <= to <= |units| && Fit(units, |env|)
    ensures match RunUnits(units, from, mid, env)
      case Err(e) => RunUnits(units, from, to, env) == Err(e)
      case Ok(e) => RunUnits(units, from, to, env) == RunUnits(units, mid, to, e)
  {
    if mid < to { RunSplit(units, from, mid, to - 1, env); }
  }

  // ---- A group's own view ----

  function Restrict<V>(env: Env<V>, ids: seq<Slot>): (r: Env<V>)
    ensures |r| == |env| && forall id | 0 <= id < |env| :: r[id] == if id in ids then env[id] else None
  {
    seq(|env|, id requires 0 <= id < |env| => if id in ids then env[id] else None)
  }

  lemma ProducedNext(us: seq<UnitSlots>, from: nat, to: nat, id: Slot)
    requires from <= to < |us|
    ensures Produced(us, from, to + 1, id) <==> Produced(us, from, to, id) || id in us[to].outputs
  {
  }

  // What the whole environment and a group's view have in common after units[from..to].
  ghost predicate Tracks<V(0)>(us: seq<UnitSlots>, from: nat, to: nat, ids: seq<Slot>, start: Env<V>, whole: Env<V>,
                               view: Env<V>)
    requires from <= to <= |us| && |start| == |whole| == |view|
  {
    forall id | 0 <= id < |start| :: TracksAt(us, from, to, ids, start, whole, view, id)
  }

  ghost predicate TracksAt<V(0)>(us: seq<UnitSlots>, from: nat, to: nat, ids: seq<Slot>, start: Env<V>, whole: Env<V>,
                                 view: Env<V>, id: Slot)
    requires from <= to <= |us| && |start| == |whole| == |view| && id < |start|
  {
    if Produced(us, from, to, id) then view[id] == whole[id] && whole[id].Some?
    else whole[id] == start[id] && view[id] == if id in ids then start[id] else None
  }

  // A view that holds everything the run imports behaves like the whole environment.
  lemma {:induction false} Track<V(0)>(units: seq<Unit<V>>, from: nat, to: nat, end: nat, ids: seq<Slot>, start: Env<V>)
    requires from <= to <= end <= |units| && Fit(units, |start|)
    requires forall id | Imported(SlotsOf(units), from, end, id) :: id in ids
    ensures var (whole, view) := (RunUnits(units, from, to, start), RunUnits(units, from, to, Restrict(start, ids)));
      if whole.Err? then view == whole
      else view.Ok? && Tracks(SlotsOf(units), from, to, ids, start, whole.value, view.value)
  {
    var us := SlotsOf(units);
    if from < to {
      Track(units, from, to - 1, end, ids, start);
      var whole, view := RunUnits(units, from, to - 1, start), RunUnits(units, from, to - 1, Restrict(start, ids));
      if whole.Ok? { TrackUnit(units, from, to - 1, end, ids, start, whole.value, view.value); }
    }
  }

  lemma TrackUnit<V(0)>(units: seq<Unit<V>>, from: nat, i: nat, end: nat, ids: seq<Slot>, start: Env<V>, whole: Env<V>,
                        view: Env<V>)
    requires from <= i < end <= |units| && Fit(units, |start|) && |start| == |whole| == |view|
    requires forall id | Imported(SlotsOf(units), from, end, id) :: id in ids
    requires Tracks(SlotsOf(units), from, i, ids, start, whole, view)
    ensures var (w, v) := (RunUnit(units[i], whole), RunUnit(units[i], view));
      if w.Err? then v == w else v.Ok? && Tracks(SlotsOf(units), from, i + 1, ids, start, w.value, v.value)
  {
    var us, unit := SlotsOf(units), units[i];
    SameReads(units, from, i, end, ids, start, whole, view);
    var w, v := RunUnit(unit, whole), RunUnit(unit, view);
    if w.Ok? {
      var outs := unit.build(Gather(whole, unit.slots.inputs)).value;
      BindSame(whole, view, unit.slots.outputs, outs);
      hide RunUnit, Bind;
      assert w.value == Bind(whole, unit.slots.outputs, outs) && v.value == Bind(view, unit.slots.outputs, outs);
      var next := i + 1;
      forall id | 0 <= id < |start| ensures TracksAt(us, from, next, ids, start, w.value, v.value, id) {
        ProducedNext(us, from, i, id);
        assert TracksAt(us, from, i, ids, start, whole, view, id);
      }
    }
  }

  // The unit reads the same from both.
  lemma SameReads<V(0)>(units: seq<Unit<V>>, from: nat, i: nat, end: nat, ids: seq<Slot>, start: Env<V>, whole: Env<V>,
                        view: Env<V>)
    requires from <= i < end <= |units| && Fit(units, |start|) && |start| == |whole| == |view|
    requires forall id | Imported(SlotsOf(units), from, end, id) :: id in ids
    requires Tracks(SlotsOf(units), from, i, ids, start, whole, view)
    ensures AllHeld(whole, units[i].slots.inputs) <==> AllHeld(view, units[i].slots.inputs)
    ensures AllHeld(whole, units[i].slots.inputs) ==>
      Gather(whole, units[i].slots.inputs) == Gather(view, units[i].slots.inputs)
  {
    var us := SlotsOf(units);
    forall id | id in units[i].slots.inputs ensures id < |start| && whole[id] == view[id] {
      assert TracksAt(us, from, i, ids, start, whole, view, id);
      if !Produced(us, from, i, id) { assert Imported(us, from, end, id); }
    }
  }

  // A run whose import is missing fails as a whole too.
  lemma MissingImport<V(0)>(units: seq<Unit<V>>, from: nat, end: nat, start: Env<V>, id: Slot)
    requires from <= end <= |units| && Fit(units, |start|)
    requires Imported(SlotsOf(units), from, end, id) && id < |start| && start[id] == None
    ensures RunUnits(units, from, end, start).Err?
  {
    hide RunUnits, Produced;
    var us := SlotsOf(units);
    var i :| from <= i < end && id in us[i].inputs && !Produced(us, from, i, id);
    RunSplit(units, from, i, end, start);
    var before := RunUnits(units, from, i, start);
    if before.Ok? {
      Unchanged(units, from, i, start, id);
      RunSplit(units, i, i + 1, end, before.value);
      Starved(units, i, before.value, id);
    }
  }

  lemma {:induction false} Starved<V(0)>(units: seq<Unit<V>>, i: nat, env: Env<V>, id: Slot)
    requires i < |units| && Fit(units, |env|) && id in units[i].slots.inputs && id < |env| && env[id] == None
    ensures RunUnits(units, i, i + 1, env).Err?
  {
    hide RunUnits;
    RunOne(units, i, env);
    var n :| 0 <= n < |units[i].slots.inputs| && units[i].slots.inputs[n] == id;
  }

  lemma RunOne<V(0)>(units: seq<Unit<V>>, i: nat, env: Env<V>)
    requires i < |units| && Fit(units, |env|)
    ensures Below(units[i].slots.outputs, |env|) && RunUnits(units, i, i + 1, env) == RunUnit(units[i], env)
  {
    hide RunUnit;
    assert RunUnits(units, i, i, env) == Ok(env);
  }

  lemma {:induction false} Unchanged<V(0)>(units: seq<Unit<V>>, from: nat, to: nat, start: Env<V>, id: Slot)
    requires from <= to <= |units| && Fit(units, |start|) && id < |start|
    requires RunUnits(units, from, to, start).Ok? && !Produced(SlotsOf(units), from, to, id)
    ensures RunUnits(units, from, to, start).value[id] == start[id]
  {
    if from < to {
      ProducedNext(SlotsOf(units), from, to - 1, id);
      Unchanged(units, from, to - 1, start, id);
    }
  }

  // ---- A group against the store ----

  function Kept<V>(store: Env<V>, ids: seq<Slot>, table: Env<V>): (r: Env<V>)
    requires |store| == |table|
    ensures |r| == |store| && forall id | 0 <= id < |store| :: r[id] == if id in ids then table[id] else store[id]
  {
    seq(|store|, id requires 0 <= id < |store| => if id in ids then table[id] else store[id])
  }

  // Load the inputs, run the members, store the outputs.
  function GroupStep<V(0)>(units: seq<Unit<V>>, begin: nat, end: nat, group: GroupSlots,
                           store: Env<V>): (r: Result<Env<V>, RunError>)
    requires begin <= end <= |units| && Fit(units, |store|)
    ensures r.Ok? ==> |r.value| == |store|
  {
    if !AllHeld(store, group.inputs) then Err(Unproduced)
    else
      match RunUnits(units, begin, end, Restrict(store, group.inputs))
      case Err(e) => Err(e)
      case Ok(table) => if AllHeld(table, group.outputs) then Ok(Kept(store, group.outputs, table)) else Err(LostOutput)
  }

  // A slot whose value still matters.
  ghost predicate Live(us: seq<UnitSlots>, at: nat, layerOutput: Slot, id: Slot) {
    id == layerOutput || Consumed(us, at, id)
  }

  ghost predicate Agrees<V(0)>(us: seq<UnitSlots>, at: nat, layerOutput: Slot, whole: Env<V>, store: Env<V>) {
    |whole| == |store| && forall id | 0 <= id < |whole| && Live(us, at, layerOutput, id) :: store[id] == whole[id]
  }

  lemma HeldMembers<V(0)>(env: Env<V>, ids: seq<Slot>)
    requires Below(ids, |env|)
    ensures AllHeld(env, ids) <==> forall id | id in ids :: id < |env| && env[id].Some?
  {
    if forall id | id in ids :: id < |env| && env[id].Some? {
      forall n | 0 <= n < |ids| ensures env[ids[n]].Some? { assert ids[n] in ids; }
    }
  }

  lemma ImportsLive<V(0)>(us: seq<UnitSlots>, begin: nat, end: nat, layerOutput: Slot, group: GroupSlots, whole: Env<V>,
                          store: Env<V>)
    requires begin <= end <= |us| && GroupFor(us, begin, end, layerOutput, group)
    requires Agrees(us, begin, layerOutput, whole, store) && Below(group.inputs, |store|)
    ensures Restrict(store, group.inputs) == Restrict(whole, group.inputs)
    ensures AllHeld(store, group.inputs) <==> AllHeld(whole, group.inputs)
  {
    forall id | id in group.inputs ensures id < |store| && store[id] == whole[id] {
      assert Imported(us, begin, end, id);
      assert Consumed(us, begin, id) && Live(us, begin, layerOutput, id);
    }
    HeldMembers(store, group.inputs);
    HeldMembers(whole, group.inputs);
  }

  // A group does to the store what its units do one by one to everything that still matters.
  lemma GroupAgrees<V(0)>(units: seq<Unit<V>>, begin: nat, end: nat, layerOutput: Slot, group: GroupSlots,
                          whole: Env<V>, store: Env<V>)
    requires begin <= end <= |units| && Fit(units, |whole|)
    requires GroupFor(SlotsOf(units), begin, end, layerOutput, group)
    requires Agrees(SlotsOf(units), begin, layerOutput, whole, store)
    requires Below(group.inputs, |store|) && Below(group.outputs, |store|)
    ensures match RunUnits(units, begin, end, whole)
      case Err(e) => GroupStep(units, begin, end, group, store)
                  == Err(if AllHeld(whole, group.inputs) then e else Unproduced)
      case Ok(after) =>
        var r := GroupStep(units, begin, end, group, store);
        r.Ok? && Agrees(SlotsOf(units), end, layerOutput, after, r.value)
  {
    var us := SlotsOf(units);
    ImportsLive(us, begin, end, layerOutput, group, whole, store);
    if !AllHeld(whole, group.inputs) {
      HeldMembers(whole, group.inputs);
      var id :| id in group.inputs && whole[id] == None;
      MissingImport(units, begin, end, whole, id);
    } else {
      Track(units, begin, end, end, group.inputs, whole);
      var run, view := RunUnits(units, begin, end, whole), RunUnits(units, begin, end, Restrict(whole, group.inputs));
      if run.Ok? { StoreAgrees(us, begin, end, layerOutput, group, whole, store, run.value, view.value); }
    }
  }

  lemma StoreAgrees<V(0)>(us: seq<UnitSlots>, begin: nat, end: nat, layerOutput: Slot, group: GroupSlots,
                          whole: Env<V>, store: Env<V>, after: Env<V>, table: Env<V>)
    requires begin <= end <= |us| && GroupFor(us, begin, end, layerOutput, group)
    requires Agrees(us, begin, layerOutput, whole, store) && Below(group.outputs, |store|)
    requires |after| == |table| == |whole| && Tracks(us, begin, end, group.inputs, whole, after, table)
    ensures AllHeld(table, group.outputs) && Agrees(us, end, layerOutput, after, Kept(store, group.outputs, table))
  {
    forall id | id in group.outputs ensures id < |table| && table[id].Some? {
      assert Exported(us, begin, end, layerOutput, id);
      assert TracksAt(us, begin, end, group.inputs, whole, after, table, id);
    }
    HeldMembers(table, group.outputs);
    forall id | 0 <= id < |after| && Live(us, end, layerOutput, id)
      ensures Kept(store, group.outputs, table)[id] == after[id]
    {
      assert TracksAt(us, begin, end, group.inputs, whole, after, table, id);
      if Produced(us, begin, end, id) {
        assert Exported(us, begin, end, layerOutput, id);
      } else {
        assert !Exported(us, begin, end, layerOutput, id) && Live(us, begin, layerOutput, id);
      }
    }
  }

  // Every unit reads the layer's input or what an earlier unit wrote.
  ghost predicate DefinedBeforeUse(us: seq<UnitSlots>, layerInput: Slot) {
    forall id | Imported(us, 0, |us|, id) :: id == layerInput
  }

  // Such a layer never reads a slot nothing produced.
  lemma {:induction false} NeverUnproduced<V(0)>(units: seq<Unit<V>>, to: nat, layerInput: Slot, env: Env<V>)
    requires to <= |units| && Fit(units, |env|) && DefinedBeforeUse(SlotsOf(units), layerInput)
    requires layerInput < |env| && env[layerInput].Some?
    ensures RunUnits(units, 0, to, env).Err? ==> RunUnits(units, 0, to, env).error == BadBuild
    ensures RunUnits(units, 0, to, env).Ok? ==>
      forall id | 0 <= id < |env| && (id == layerInput || Produced(SlotsOf(units), 0, to, id)) ::
      RunUnits(units, 0, to, env).value[id].Some?
  {
    var us := SlotsOf(units);
    if to > 0 {
      NeverUnproduced(units, to - 1, layerInput, env);
      var before := RunUnits(units, 0, to - 1, env);
      if before.Ok? {
        var inputs := units[to - 1].slots.inputs;
        forall n | 0 <= n < |inputs| ensures before.value[inputs[n]].Some? {
          var id := inputs[n];
          if !Produced(us, 0, to - 1, id) { assert Imported(us, 0, |us|, id); }
        }
        forall id | 0 <= id < |env|
          ensures Produced(us, 0, to, id) <==> Produced(us, 0, to - 1, id) || id in us[to - 1].outputs
        {
          ProducedNext(us, 0, to - 1, id);
        }
      }
    }
  }

  // Its result depends on its input alone, whatever else the slots still hold.
  lemma DependsOnInput<V(0)>(units: seq<Unit<V>>, layerInput: Slot, env: Env<V>)
    requires Fit(units, |env|) && DefinedBeforeUse(SlotsOf(units), layerInput) && layerInput < |env|
    ensures var (whole, alone) := (RunUnits(units, 0, |units|, env),
                                   RunUnits(units, 0, |units|, Restrict(env, [layerInput])));
      if whole.Err? then alone == whole else alone.Ok? && alone.value[layerInput] == whole.value[layerInput]
  {
    Track(units, 0, |units|, |units|, [layerInput], env);
    var whole, alone := RunUnits(units, 0, |units|, env), RunUnits(units, 0, |units|, Restrict(env, [layerInput]));
    if whole.Ok? {
      assert TracksAt(SlotsOf(units), 0, |units|, [layerInput], env, whole.value, alone.value, layerInput);
    }
  }

  // ---- The store and the runner ----

  class SlotStore<V(0)> {
    var entries: Env<V>

    constructor ()
      ensures entries == []
    {
      entries := [];
    }

    method Resize(n: nat)
      modifies this
      ensures |entries| == n && forall id | 0 <= id < n && id < old(|entries|) :: entries[id] == old(entries[id])
      ensures forall id | old(|entries|) <= id < n :: entries[id] == None
    {
      entries := seq(n, id requires 0 <= id reads this => if id < |entries| then entries[id] else None);
    }

    method InvalidateAll()
      modifies this
      ensures |entries| == old(|entries|) && forall id | 0 <= id < |entries| :: entries[id] == None
    {
      entries := seq(|entries|, _ => None);
    }

    method Download(id: Slot, value: V)
      requires id < |entries|
      modifies this
      ensures entries == old(entries)[id := Some(value)]
    {
      entries := entries[id := Some(value)];
    }
  }

  method Load<V(0)>(store: SlotStore<V>, ids: seq<Slot>) returns (table: Option<Env<V>>)
    requires Below(ids, |store.entries|)
    ensures table == if AllHeld(store.entries, ids) then Some(Restrict(store.entries, ids)) else None
  {
    var loaded: Env<V> := seq(|store.entries|, _ => None);
    for n := 0 to |ids|
      invariant forall k | 0 <= k < n :: store.entries[ids[k]].Some?
      invariant loaded == Restrict(store.entries, ids[..n])
    {
      if store.entries[ids[n]] == None { return None; }
      loaded := loaded[ids[n] := store.entries[ids[n]]];
    }
    assert ids[..|ids|] == ids;
    table := Some(loaded);
  }

  method RunMembers<V(0)>(units: seq<Unit<V>>, begin: nat, end: nat, loaded: Env<V>)
    returns (r: Result<Env<V>, RunError>)
    requires begin <= end <= |units| && Fit(units, |loaded|)
    ensures r == RunUnits(units, begin, end, loaded)
  {
    hide RunUnit, Below;
    var table := loaded;
    for i := begin to end
      invariant RunUnits(units, begin, i, loaded) == Ok(table)
    {
      RunSplit(units, begin, i + 1, end, loaded);
      r := RunUnit(units[i], table);
      if r.Err? { return; }
      table := r.value;
    }
    r := Ok(table);
  }

  method Save<V(0)>(store: SlotStore<V>, ids: seq<Slot>, table: Env<V>)
    requires |table| == |store.entries| && Below(ids, |table|) && AllHeld(table, ids)
    modifies store
    ensures store.entries == Kept(old(store.entries), ids, table)
  {
    for n := 0 to |ids|
      invariant store.entries == Kept(old(store.entries), ids[..n], table)
    {
      store.Download(ids[n], table[ids[n]].value);
    }
    assert ids[..|ids|] == ids;
  }

  method RunGroup<V(0)>(store: SlotStore<V>, units: seq<Unit<V>>, begin: nat, end: nat, group: GroupSlots)
    returns (failure: Option<RunError>)
    requires begin <= end <= |units| && Fit(units, |store.entries|)
    requires Below(group.inputs, |store.entries|) && Below(group.outputs, |store.entries|)
    modifies store
    ensures match GroupStep(units, begin, end, group, old(store.entries))
      case Err(e) => failure == Some(e) && store.entries == old(store.entries)
      case Ok(after) => failure == None && store.entries == after
  {
    hide RunUnits;
    var loaded := Load(store, group.inputs);
    if loaded == None { return Some(Unproduced); }
    var table := RunMembers(units, begin, end, loaded.value);
    if table.Err? { return Some(table.error); }
    if !AllHeld(table.value, group.outputs) { return Some(LostOutput); }
    Save(store, group.outputs, table.value);
    failure := None;
  }

  // After g groups the store stands where the units, one by one, stand, on every slot
  // that still matters.
  ghost predicate InStep<V(0)>(units: seq<Unit<V>>, runs: seq<nat>, layerOutput: Slot, start: Env<V>, g: nat,
                               entries: Env<V>) {
    && g <= |runs| && Start(runs, g) <= |units| && Fit(units, |start|)
    && var whole := RunUnits(units, 0, Start(runs, g), start);
      whole.Ok? && Agrees(SlotsOf(units), Start(runs, g), layerOutput, whole.value, entries)
  }

  lemma AtStart<V(0)>(units: seq<Unit<V>>, runs: seq<nat>, layerOutput: Slot, start: Env<V>)
    requires Fit(units, |start|)
    ensures InStep(units, runs, layerOutput, start, 0, start)
  {
    EmptyTotal(runs);
  }

  // After the last group, the output slot holds what the units leave there.
  lemma AtEnd<V(0)>(units: seq<Unit<V>>, runs: seq<nat>, layerOutput: Slot, start: Env<V>, entries: Env<V>)
    requires InStep(units, runs, layerOutput, start, |runs|, entries) && Total(runs) == |units| && layerOutput < |start|
    ensures RunUnits(units, 0, |units|, start).Ok?
    ensures |entries| == |start| && entries[layerOutput] == RunUnits(units, 0, |units|, start).value[layerOutput]
  {
    assert runs[..|runs|] == runs;
  }

  // One group of a layer. It fails exactly when its units, one by one, do.
  method RunNext<V(0)>(store: SlotStore<V>, units: seq<Unit<V>>, runs: seq<nat>, groups: seq<GroupSlots>,
                       layerOutput: Slot, g: nat, begin: nat, ghost start: Env<V>)
    returns (failure: Option<RunError>)
    requires Total(runs) == |units| && GroupsFor(SlotsOf(units), runs, layerOutput, groups)
    requires Fit(units, |start|) && layerOutput < |start| && g < |runs| && begin == Start(runs, g)
    requires InStep(units, runs, layerOutput, start, g, store.entries)
    modifies store
    ensures |store.entries| == |start| && Start(runs, g + 1) == begin + runs[g] <= |units|
    ensures failure == None <==> RunUnits(units, 0, Start(runs, g + 1), start).Ok?
    ensures failure == None ==> InStep(units, runs, layerOutput, start, g + 1, store.entries)
    ensures failure.Some? ==> RunUnits(units, 0, |units|, start).Err?
    ensures DefinedBeforeUse(SlotsOf(units), layerOutput) && start[layerOutput].Some? ==>
      failure == None || failure == Some(BadBuild)
  {
    hide RunUnits, Fit, DefinedBeforeUse, GroupFor, GroupStep;
    ghost var whole := RunUnits(units, 0, begin, start).value;
    assert GroupOf(SlotsOf(units), runs, layerOutput, groups[g], g);
    TotalNext(runs, g);
    var end := begin + runs[g];
    GroupBelow(units, begin, end, layerOutput, groups[g], |start|);
    GroupAgrees(units, begin, end, layerOutput, groups[g], whole, store.entries);
    RunSplit(units, 0, begin, end, start);
    RunSplit(units, 0, end, |units|, start);
    if DefinedBeforeUse(SlotsOf(units), layerOutput) && start[layerOutput].Some? {
      ImportsHeld(units, begin, end, layerOutput, groups[g], start, whole);
    }
    failure := RunGroup(store, units, begin, end, groups[g]);
  }

  // A layer, cut into runs any way that covers it, leaves its output slot as its
  // units one by one would; and it fails exactly when they do.
  method RunLayer<V(0)>(store: SlotStore<V>, units: seq<Unit<V>>, runs: seq<nat>, groups: seq<GroupSlots>,
                        layerOutput: Slot)
    returns (failure: Option<RunError>)
    requires Total(runs) == |units| && GroupsFor(SlotsOf(units), runs, layerOutput, groups)
    requires Fit(units, |store.entries|) && layerOutput < |store.entries|
    modifies store
    ensures |store.entries| == old(|store.entries|)
    ensures failure == None <==> RunUnits(units, 0, |units|, old(store.entries)).Ok?
    ensures failure == None ==>
      store.entries[layerOutput] == RunUnits(units, 0, |units|, old(store.entries)).value[layerOutput]
    ensures DefinedBeforeUse(SlotsOf(units), layerOutput) && old(store.entries[layerOutput].Some?) ==>
      failure == None || failure == Some(BadBuild)
  {
    hide RunUnits, Fit, DefinedBeforeUse, InStep, GroupsFor;
    ghost var start := store.entries;
    var begin := 0;
    EmptyTotal(runs);
    AtStart(units, runs, layerOutput, start);
    for g := 0 to |runs|
      invariant begin == Start(runs, g) && |store.entries| == |start|
      invariant InStep(units, runs, layerOutput, start, g, store.entries)
    {
      failure := RunNext(store, units, runs, groups, layerOutput, g, begin, start);
      if failure.Some? { return; }
      begin := begin + runs[g];
    }
    AtEnd(units, runs, layerOutput, start, store.entries);
    failure := None;
  }

  lemma GroupBelow<V(0)>(units: seq<Unit<V>>, begin: nat, end: nat, layerOutput: Slot, group: GroupSlots, size: nat)
    requires begin <= end <= |units| && Fit(units, size) && GroupFor(SlotsOf(units), begin, end, layerOutput, group)
    ensures Below(group.inputs, size) && Below(group.outputs, size)
  {
    var us := SlotsOf(units);
    forall n | 0 <= n < |group.inputs| ensures group.inputs[n] < size {
      assert group.inputs[n] in group.inputs && Imported(us, begin, end, group.inputs[n]);
    }
    forall n | 0 <= n < |group.outputs| ensures group.outputs[n] < size {
      assert group.outputs[n] in group.outputs && Exported(us, begin, end, layerOutput, group.outputs[n]);
    }
  }

  // In a define-before-use layer, a group's inputs are there when it starts.
  lemma ImportsHeld<V(0)>(units: seq<Unit<V>>, begin: nat, end: nat, layerInput: Slot, group: GroupSlots, start: Env<V>,
                          whole: Env<V>)
    requires begin <= end <= |units| && Fit(units, |start|) && GroupFor(SlotsOf(units), begin, end, layerInput, group)
    requires DefinedBeforeUse(SlotsOf(units), layerInput) && layerInput < |start| && start[layerInput].Some?
    requires RunUnits(units, 0, begin, start) == Ok(whole) && |whole| == |start|
    ensures AllHeld(whole, group.inputs)
    ensures RunUnits(units, 0, end, start).Err? ==> RunUnits(units, 0, end, start).error == BadBuild
  {
    var us := SlotsOf(units);
    NeverUnproduced(units, begin, layerInput, start);
    NeverUnproduced(units, end, layerInput, start);
    GroupBelow(units, begin, end, layerInput, group, |start|);
    forall id | id in group.inputs ensures id < |whole| && whole[id].Some? {
      assert Imported(us, begin, end, id);
      var i :| begin <= i < end && id in us[i].inputs && !Produced(us, begin, i, id);
      if !Produced(us, 0, begin, id) {
        assert !Produced(us, 0, i, id);
        assert Imported(us, 0, |us|, id);
      }
    }
    HeldMembers(whole, group.inputs);
  }
}
