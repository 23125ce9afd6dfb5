/** `SystemMICT`: a node owning an ordered list of components. */
module SystemCycle {
  import opened Values
  import Engine
  import opened Hierarchy
  import opened ComponentCycle

  /** Distinct components owning disjoint objects. */
  ghost predicate DisjointComponents(components: seq<Component>)
  {
    forall i, j | 0 <= i < |components| && 0 <= j < |components| && i != j :: components[i].Repr !! components[j].Repr
  }

  /** The objects the components own, together. */
  ghost function ComponentsRepr(components: seq<Component>): (r: set<object>)
    ensures forall i | 0 <= i < |components| :: components[i].Repr <= r
  {
    if components == [] then {} else components[0].Repr + ComponentsRepr(components[1..])
  }

  class System {
    const systemId: string
    const systemType: string
    const componentCycles: seq<Component>
    const engine: Engine.Sequencer
    var currentState: State
    ghost const Repr: set<object>

    ghost predicate Valid()
      reads this, Repr
    {
      && this in Repr && engine in Repr
      && engine.Valid() && engine.stages == Engine.Stages
      && (forall i | 0 <= i < |componentCycles| ::
            && componentCycles[i] in Repr && componentCycles[i].Repr <= Repr
            && this !in componentCycles[i].Repr && engine !in componentCycles[i].Repr
            && componentCycles[i].Valid())
      && DisjointComponents(componentCycles)
    }

    /** The `i`-th component is a valid part of this system's footprint. */
    ghost predicate ChildIn(i: nat)
      reads Repr
      requires i < |componentCycles|
    {
      componentCycles[i] in Repr && componentCycles[i].Repr <= Repr && componentCycles[i].Valid()
    }

    ghost function Model(): Snapshot
      reads this, Repr
      requires Valid()
    {
      Snapshot(engine.index, engine.steps, currentState,
               seq(|componentCycles|, i reads Repr requires 0 <= i < |componentCycles| && ChildIn(i) =>
                     componentCycles[i].Model()))
    }

    constructor (systemId: string, systemType: string, initialState: State, componentCycles: seq<Component>)
      requires forall i | 0 <= i < |componentCycles| :: componentCycles[i].Valid()
      requires DisjointComponents(componentCycles)
      ensures Valid() && fresh(Repr - ComponentsRepr(componentCycles))
      ensures this.systemId == systemId && this.systemType == systemType
      ensures this.componentCycles == componentCycles
      ensures Model().index == 0 && Model().steps == 0
      ensures Model().state == Merge(initialState, map["system_id" := Str(systemId)])
      ensures |Model().children| == |componentCycles|
      ensures forall i | 0 <= i < |componentCycles| :: Model().children[i] == old(componentCycles[i].Model())
    {
      this.systemId := systemId;
      this.systemType := systemType;
      this.componentCycles := componentCycles;
      var e := new Engine.Sequencer(Engine.Stages);
      engine := e;
      currentState := Merge(initialState, map["system_id" := Str(systemId)]);
      Repr := {this, e} + ComponentsRepr(componentCycles);
    }

    method UpdateState(newState: State, stage: string)
      modifies this`currentState
      ensures currentState == newState
    {
      currentState := newState;
    }

    method HandleError(error: Error, stage: string, state: State)
      ensures currentState == old(currentState)
    {
    }

    /** One pass of the Iteration loop: the `i`-th component takes one step and
        no other component changes. */
    method StepChild(i: nat)
      requires Valid() && i < |componentCycles|
      modifies Repr - {this, engine}
      ensures Valid()
      ensures componentCycles[i].Model() == Next(ComponentLevel, old(componentCycles[i].Model()))
      ensures forall j | 0 <= j < |componentCycles| && j != i :: componentCycles[j].Model() == old(componentCycles[j].Model())
    {
      ghost var cells := componentCycles[i].Step();
    }

    /** The Iteration stage: step every component once, in list order, and
        return the state unchanged. */
    method Iteration(state: State) returns (r: State, ghost stepped: seq<Component>)
      requires Valid()
      modifies Repr - {this, engine}
      ensures Valid()
      ensures r == state
      ensures stepped == componentCycles
      ensures Model() == old(Model()).(children := NextAll(ComponentLevel, old(Model()).children))
    {
      ghost var before := Model().children;
      stepped := [];
      for i := 0 to |componentCycles|
        invariant Valid()
        invariant stepped == componentCycles[..i]
        invariant forall j | 0 <= j < i :: componentCycles[j].Model() == Next(ComponentLevel, before[j])
        invariant forall j | i <= j < |componentCycles| :: componentCycles[j].Model() == before[j]
      {
        StepChild(i);
        stepped := stepped + [componentCycles[i]];
      }
      r := state;
      ghost var expected := NextAll(ComponentLevel, before);
      forall i | 0 <= i < |componentCycles|
        ensures Model().children[i] == expected[i]
      {
        NextAllAt(ComponentLevel, before, i);
      }
      assert Model().children == expected;
    }

    /** What the engine does once a stage function has returned: commit the
        result with `update_state` and move on to the next stage. */
    method Commit(result: State, stage: string)
      requires Valid()
      modifies this`currentState, engine
      ensures Valid()
      ensures Model() == Snapshot(Succ(old(engine.index)), old(engine.steps) + 1, result, old(Model()).children)
    {
      ghost var before := Model().children;
      UpdateState(result, stage);
      engine.Advance();
      assert forall i | 0 <= i < |componentCycles| :: Model().children[i] == before[i];
      assert Model().children == before;
    }

    /** One `next_stage`. Only Iteration reaches the components. */
    method Step() returns (ghost stepped: seq<Component>)
      requires Valid()
      modifies Repr
      ensures Valid()
      ensures Model() == Next(SystemLevel, old(Model()))
      ensures stepped == SteppedAt(old(engine.index), componentCycles)
    {
      ghost var before := Model();
      var stage := engine.CurrentStage();
      var result;
      stepped := [];
      if stage == "Iteration" {
        result, stepped := Iteration(currentState);
      } else {
        result := StageFunction(SystemLevel, stage, currentState);
      }
      ghost var children := Model().children;
      Commit(result, stage);
      NextFromParts(SystemLevel, before, result, children, Model());
    }

    /** The committed state, the one `Model()` reports. */
    function GetState(): (s: State)
      reads this
      ensures s == currentState
    {
      currentState
    }
  }
}
