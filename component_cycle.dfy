/** `ComponentMICT`: a node owning an ordered list of cells. */
module ComponentCycle {
  import opened Values
  import Engine
  import opened Hierarchy
  import opened CellCycle

  /** Distinct cells owning disjoint objects: the tree is strictly owned. */
  ghost predicate DisjointCells(cells: seq<Cell>)
  {
    forall i, j | 0 <= i < |cells| && 0 <= j < |cells| && i != j :: cells[i].Repr !! cells[j].Repr
  }

  /** The objects the cells own, together. */
  ghost function CellsRepr(cells: seq<Cell>): (r: set<object>)
    ensures forall i | 0 <= i < |cells| :: cells[i].Repr <= r
  {
    if cells == [] then {} else cells[0].Repr + CellsRepr(cells[1..])
  }

  class Component {
    const componentId: string
    const componentType: string
    const subCycles: seq<Cell>
    const engine: Engine.Sequencer
    var currentState: State
    ghost const Repr: set<object>

    ghost predicate Valid()
      reads this, Repr
    {
      && this in Repr && engine in Repr
      && engine.Valid() && engine.stages == Engine.Stages
      && (forall i | 0 <= i < |subCycles| ::
            && subCycles[i] in Repr && subCycles[i].Repr <= Repr
            && this !in subCycles[i].Repr && engine !in subCycles[i].Repr
            && subCycles[i].Valid())
      && DisjointCells(subCycles)
    }

    /** The `i`-th cell is a valid part of this component's footprint. */
    ghost predicate ChildIn(i: nat)
      reads Repr
      requires i < |subCycles|
    {
      subCycles[i] in Repr && subCycles[i].Repr <= Repr && subCycles[i].Valid()
    }

    ghost function Model(): Snapshot
      reads this, Repr
      requires Valid()
    {
      Snapshot(engine.index, engine.steps, currentState,
               seq(|subCycles|, i reads Repr requires 0 <= i < |subCycles| && ChildIn(i) => subCycles[i].Model()))
    }

    constructor (componentId: string, componentType: string, initialState: State, subCycles: seq<Cell>)
      requires forall i | 0 <= i < |subCycles| :: subCycles[i].Valid()
      requires DisjointCells(subCycles)
      ensures Valid() && fresh(Repr - CellsRepr(subCycles))
      ensures this.componentId == componentId && this.componentType == componentType
      ensures this.subCycles == subCycles
      ensures Model().index == 0 && Model().steps == 0
      ensures Model().state == Merge(initialState, map["component_id" := Str(componentId)])
      ensures |Model().children| == |subCycles|
      ensures forall i | 0 <= i < |subCycles| :: Model().children[i] == old(subCycles[i].Model())
    {
      this.componentId := componentId;
      this.componentType := componentType;
      this.subCycles := subCycles;
      var e := new Engine.Sequencer(Engine.Stages);
      engine := e;
      currentState := Merge(initialState, map["component_id" := Str(componentId)]);
      Repr := {this, e} + CellsRepr(subCycles);
    }

    method UpdateState(newState: State, stage: string)
      modifies this`currentState
      ensures currentState == newState
    {
      currentState := newState;
    }

    method HandleError(error: Error, stage: string, state: State)
      ensures currentState == old(currentState)
    {
    }

    /** One pass of the Iteration loop: the `i`-th cell takes one step and
        no other cell changes. */
    method StepChild(i: nat)
      requires Valid() && i < |subCycles|
      modifies Repr - {this, engine}
      ensures Valid()
      ensures subCycles[i].Model() == Next(CellLevel, old(subCycles[i].Model()))
      ensures forall j | 0 <= j < |subCycles| && j != i :: subCycles[j].Model() == old(subCycles[j].Model())
    {
      subCycles[i].Step();
    }

    /** The Iteration stage: step every cell once, in list order, and
        return the state unchanged. */
    method Iteration(state: State) returns (r: State, ghost stepped: seq<Cell>)
      requires Valid()
      modifies Repr - {this, engine}
      ensures Valid()
      ensures r == state
      ensures stepped == subCycles
      ensures Model() == old(Model()).(children := NextAll(CellLevel, old(Model()).children))
    {
      ghost var before := Model().children;
      stepped := [];
      for i := 0 to |subCycles|
        invariant Valid()
        invariant stepped == subCycles[..i]
        invariant forall j | 0 <= j < i :: subCycles[j].Model() == Next(CellLevel, before[j])
        invariant forall j | i <= j < |subCycles| :: subCycles[j].Model() == before[j]
      {
        StepChild(i);
        stepped := stepped + [subCycles[i]];
      }
      r := state;
      ghost var expected := NextAll(CellLevel, before);
      forall i | 0 <= i < |subCycles|
        ensures Model().children[i] == expected[i]
      {
        NextAllAt(CellLevel, before, i);
      }
      assert Model().children == expected;
    }

    /** What the engine does once a stage function has returned: commit the
        result with `update_state` and move on to the next stage. */
    method Commit(result: State, stage: string)
      requires Valid()
      modifies this`currentState, engine
      ensures Valid()
      ensures Model() == Snapshot(Succ(old(engine.index)), old(engine.steps) + 1, result, old(Model()).children)
    {
      ghost var before := Model().children;
      UpdateState(result, stage);
      engine.Advance();
      assert forall i | 0 <= i < |subCycles| :: Model().children[i] == before[i];
      assert Model().children == before;
    }

    /** One `next_stage`. Only Iteration reaches the cells. */
    method Step() returns (ghost stepped: seq<Cell>)
      requires Valid()
      modifies Repr
      ensures Valid()
      ensures Model() == Next(ComponentLevel, old(Model()))
      ensures stepped == SteppedAt(old(engine.index), subCycles)
    {
      ghost var before := Model();
      var stage := engine.CurrentStage();
      var result;
      stepped := [];
      if stage == "Iteration" {
        result, stepped := Iteration(currentState);
      } else {
        result := StageFunction(ComponentLevel, stage, currentState);
      }
      ghost var children := Model().children;
      Commit(result, stage);
      NextFromParts(ComponentLevel, before, result, children, Model());
    }

    /** The committed state, the one `Model()` reports. */
    function GetState(): (s: State)
      reads this
      ensures s == currentState
    {
      currentState
    }

    /** The current state of every cell, in list order. */
    function GetSubCycleStates(): (r: seq<State>)
      reads this, Repr
      requires Valid()
      ensures |r| == |subCycles| == |Model().children|
      ensures forall i | 0 <= i < |r| :: r[i] == subCycles[i].GetState() == Model().children[i].state
    {
      seq(|subCycles|, i reads Repr requires 0 <= i < |subCycles| && subCycles[i] in Repr => subCycles[i].GetState())
    }
  }
}
