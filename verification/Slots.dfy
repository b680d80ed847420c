// What each run of units exchanges with the world, given which slots every unit
// reads and writes.
module Slots {
  import opened Prelude

  type Slot = nat

  datatype UnitSlots = UnitSlots(inputs: seq<Slot>, outputs: seq<Slot>)
  datatype GroupSlots = GroupSlots(inputs: seq<Slot>, outputs: seq<Slot>)

  datatype SlotError = EmptyRun | Overflow | NotCovering | UselessGroup

  // Is `id` written by one of units[from..to]?
  predicate Produced(units: seq<UnitSlots>, from: nat, to: nat, id: Slot)
    requires from <= to <= |units|
  {
    exists j :: from <= j < to && id in units[j].outputs
  }

  // Is `id` read by a unit from `from` on?
  predicate Consumed(units: seq<UnitSlots>, from: nat, id: Slot) {
    exists k :: from <= k < |units| && id in units[k].inputs
  }

  // Read by units[begin..end] before the run itself writes it.
  predicate Imported(units: seq<UnitSlots>, begin: nat, end: nat, id: Slot)
    requires begin <= end <= |units|
  {
    exists i :: begin <= i < end && id in units[i].inputs && !Produced(units, begin, i, id)
  }

  // Written by units[begin..end], and read by a later run or the layer's result.
  predicate Exported(units: seq<UnitSlots>, begin: nat, end: nat, layerOutput: Slot, id: Slot)
    requires begin <= end <= |units|
  {
    Produced(units, begin, end, id) && (id == layerOutput || Consumed(units, end, id))
  }

  predicate NoRepeat(s: seq<Slot>) { forall i, j | 0 <= i < j < |s| :: s[i] != s[j] }

  // A group's slots: exactly what crosses its boundary, each once.
  ghost predicate GroupFor(units: seq<UnitSlots>, begin: nat, end: nat, layerOutput: Slot, group: GroupSlots)
    requires begin <= end <= |units|
  {
    && NoRepeat(group.inputs) && NoRepeat(group.outputs)
    && (forall id :: id in group.inputs <==> Imported(units, begin, end, id))
    && (forall id :: id in group.outputs <==> Exported(units, begin, end, layerOutput, id))
  }

  function PushUnique(out: seq<Slot>, id: Slot): (r: seq<Slot>)
    requires NoRepeat(out)
    ensures NoRepeat(r) && forall x :: x in r <==> x in out || x == id
  {
    if id in out then out else out + [id]
  }

  function Total(runs: seq<nat>): nat { if runs == [] then 0 else Total(runs[..|runs| - 1]) + Last(runs) }

  lemma TotalNext(runs: seq<nat>, g: nat)
    requires g < |runs|
    ensures Total(runs[..g + 1]) == Total(runs[..g]) + runs[g]
  {
    assert runs[..g + 1][..g] == runs[..g];
  }

  lemma {:induction false} TotalPrefix(runs: seq<nat>, g: nat)
    requires g <= |runs|
    ensures Total(runs[..g]) <= Total(runs)
    decreases |runs| - g
  {
    if g < |runs| {
      TotalNext(runs, g);
      TotalPrefix(runs, g + 1);
    } else {
      assert runs[..g] == runs;
    }
  }

  method Imports(units: seq<UnitSlots>, begin: nat, end: nat) returns (inputs: seq<Slot>)
    requires begin <= end <= |units|
    ensures NoRepeat(inputs) && forall id :: id in inputs <==> Imported(units, begin, end, id)
  {
    inputs := [];
    for i := begin to end
      invariant NoRepeat(inputs) && forall id :: id in inputs <==> Imported(units, begin, i, id)
    {
      ghost var before := inputs;
      var ids := units[i].inputs;
      for n := 0 to |ids|
        invariant NoRepeat(inputs)
        invariant forall id :: id in inputs <==> id in before || (id in ids[..n] && !Produced(units, begin, i, id))
      {
        var internal := false;
        for j := begin to i
          invariant internal <==> Produced(units, begin, j, ids[n])
        {
          internal := internal || ids[n] in units[j].outputs;
        }
        if !internal { inputs := PushUnique(inputs, ids[n]); }
      }
      assert ids[..|ids|] == ids;
    }
  }

  method Exports(units: seq<UnitSlots>, begin: nat, end: nat, layerOutput: Slot) returns (outputs: seq<Slot>)
    requires begin <= end <= |units|
    ensures NoRepeat(outputs) && forall id :: id in outputs <==> Exported(units, begin, end, layerOutput, id)
  {
    outputs := [];
    for i := begin to end
      invariant NoRepeat(outputs)
      invariant forall id ::
        id in outputs <==> Produced(units, begin, i, id) && (id == layerOutput || Consumed(units, end, id))
    {
      ghost var before := outputs;
      var ids := units[i].outputs;
      for n := 0 to |ids|
        invariant NoRepeat(outputs)
        invariant forall id ::
          id in outputs <==> id in before || (id in ids[..n] && (id == layerOutput || Consumed(units, end, id)))
      {
        var needed := ids[n] == layerOutput;
        for k := end to |units|
          invariant needed <==> ids[n] == layerOutput || exists k' :: end <= k' < k && ids[n] in units[k'].inputs
        {
          needed := needed || ids[n] in units[k].inputs;
        }
        if needed { outputs := PushUnique(outputs, ids[n]); }
      }
      assert ids[..|ids|] == ids;
    }
  }

  // Groups cover the units run by run.
  ghost predicate GroupsFor(units: seq<UnitSlots>, runs: seq<nat>, layerOutput: Slot, groups: seq<GroupSlots>)
    requires Total(runs) == |units|
  {
    && |groups| == |runs|
    && forall g | 0 <= g < |runs| :: GroupOf(units, runs, layerOutput, groups[g], g)
  }

  // Where run g starts.
  function Start(runs: seq<nat>, g: nat): nat
    requires g <= |runs|
  {
    Total(runs[..g])
  }

  ghost predicate GroupOf(units: seq<UnitSlots>, runs: seq<nat>, layerOutput: Slot, group: GroupSlots, g: nat) {
    && g < |runs| && Start(runs, g) <= Start(runs, g + 1) <= |units|
    && GroupFor(units, Start(runs, g), Start(runs, g + 1), layerOutput, group)
  }

  ghost predicate SomeExport(units: seq<UnitSlots>, begin: nat, end: nat, layerOutput: Slot)
    requires begin <= end <= |units|
  {
    exists id :: Exported(units, begin, end, layerOutput, id)
  }

  ghost predicate Useful(units: seq<UnitSlots>, runs: seq<nat>, layerOutput: Slot, g: nat) {
    && g < |runs| && Start(runs, g) <= Start(runs, g + 1) <= |units|
    && SomeExport(units, Start(runs, g), Start(runs, g + 1), layerOutput)
  }

  method ResolveGroupSlots(units: seq<UnitSlots>, runs: seq<nat>, layerOutput: Slot)
    returns (r: Result<seq<GroupSlots>, SlotError>)
    requires |units| <= SIZE_MAX
    ensures r.Ok? <==>
      && (forall g | 0 <= g < |runs| :: runs[g] > 0) && Total(runs) == |units|
      && forall g | 0 <= g < |runs| :: Useful(units, runs, layerOutput, g)
    ensures r.Ok? ==> GroupsFor(units, runs, layerOutput, r.value)
    ensures r == Err(UselessGroup) ==> (forall g | 0 <= g < |runs| :: runs[g] > 0) && Total(runs) == |units|
  {
    hide Imported, Exported, Total;
    var total := 0;
    assert Total(runs[..0]) == 0 by { EmptyTotal(runs); }
    for g := 0 to |runs|
      invariant total == Total(runs[..g]) <= SIZE_MAX
      invariant forall g' | 0 <= g' < g :: runs[g'] > 0
    {
      if runs[g] == 0 { return Err(EmptyRun); }
      TotalNext(runs, g);
      if runs[g] > SIZE_MAX - total { TotalPrefix(runs, g + 1); return Err(Overflow); }
      total := total + runs[g];
    }
    assert runs[..|runs|] == runs;
    if total != |units| { return Err(NotCovering); }
    var groups: seq<GroupSlots> := [];
    var begin := 0;
    for g := 0 to |runs|
      invariant |groups| == g && begin == Total(runs[..g]) <= |units|
      invariant forall g' | 0 <= g' < g :: GroupOf(units, runs, layerOutput, groups[g'], g')
      invariant forall g' | 0 <= g' < g :: Useful(units, runs, layerOutput, g')
    {
      TotalNext(runs, g);
      TotalPrefix(runs, g + 1);
      var end := begin + runs[g];
      var inputs := Imports(units, begin, end);
      var outputs := Exports(units, begin, end, layerOutput);
      if outputs == [] {
        assert !Useful(units, runs, layerOutput, g);
        return Err(UselessGroup);
      }
      assert outputs[0] in outputs && Exported(units, begin, end, layerOutput, outputs[0]);
      groups := groups + [GroupSlots(inputs, outputs)];
      assert SomeExport(units, begin, end, layerOutput);
      begin := end;
    }
    r := Ok(groups);
  }

  lemma EmptyTotal(runs: seq<nat>)
    ensures Total(runs[..0]) == 0
  {
  }
}
