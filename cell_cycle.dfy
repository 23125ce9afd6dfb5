/** `CellMICT`: a leaf node wrapping one engine. */
module CellCycle {
  import opened Values
  import Engine
  import opened Hierarchy

  /** The engine's initial state: the caller's record with `cell_id` and
      `cell_type` set, overriding same-named keys of the caller. */
  function InitialCellState(initialState: State, cellId: string, cellType: string): (r: State)
    ensures r.Keys == initialState.Keys + {"cell_id", "cell_type"}
    ensures r["cell_id"] == Str(cellId) && r["cell_type"] == Str(cellType)
    ensures forall k | k in initialState && k != "cell_id" && k != "cell_type" :: r[k] == initialState[k]
  {
    Merge(initialState, map["cell_id" := Str(cellId), "cell_type" := Str(cellType)])
  }

  /** `neighbor_cells if neighbor_cells is not None else []` */
  function NeighborsOrDefault(neighborCells: Option<seq<string>>): (r: seq<string>)
    ensures neighborCells.None? ==> r == []
    ensures neighborCells.Some? ==> r == neighborCells.value
  {
    match neighborCells
    case None => []
    case Some(cells) => cells
  }

  class Cell {
    const cellId: string
    const cellType: string
    const neighborCells: seq<string>
    const engine: Engine.Sequencer
    var currentState: State
    ghost const Repr: set<object>

    ghost predicate Valid()
      reads this, Repr
    {
      && Repr == {this, engine}
      && engine.Valid()
      && engine.stages == Engine.Stages
    }

    ghost function Model(): Snapshot
      reads this, Repr
      requires Valid()
    {
      Snapshot(engine.index, engine.steps, currentState, [])
    }

    constructor (cellId: string, cellType: string, initialState: State, neighborCells: Option<seq<string>>)
      ensures Valid() && fresh(Repr)
      ensures this.cellId == cellId && this.cellType == cellType
      ensures this.neighborCells == NeighborsOrDefault(neighborCells)
      ensures Model() == Snapshot(0, 0, InitialCellState(initialState, cellId, cellType), [])
    {
      this.cellId := cellId;
      this.cellType := cellType;
      this.neighborCells := NeighborsOrDefault(neighborCells);
      var e := new Engine.Sequencer(Engine.Stages);
      engine := e;
      currentState := InitialCellState(initialState, cellId, cellType);
      Repr := {this, e};
    }

    /** The commit hook: the committed state becomes the current state. */
    method UpdateState(newState: State, stage: string)
      modifies this`currentState
      ensures currentState == newState
    {
      currentState := newState;
    }

    /** The error hook only reports; the current state stays as it was. */
    method HandleError(error: Error, stage: string, state: State)
      ensures currentState == old(currentState)
    {
    }

    /** One `next_stage`: run the current stage's function on the current
        state, commit the result, move to the next stage. */
    method Step()
      requires Valid()
      modifies Repr
      ensures Valid()
      ensures Model() == Next(CellLevel, old(Model()))
    {
      var stage := engine.CurrentStage();
      var result := StageFunction(CellLevel, stage, currentState);
      UpdateState(result, stage);
      engine.Advance();
    }

    /** The committed state, the one `Model()` reports. */
    function GetState(): (s: State)
      reads this
      ensures s == currentState
    {
      currentState
    }
  }
}
