/** `OrganismMICT`: the root of the tree, owning an ordered list of systems. */
module OrganismCycle {
  import opened Values
  import Engine
  import opened Hierarchy
  import opened ComponentCycle
  import opened SystemCycle

  /** Distinct systems owning disjoint objects. */
  ghost predicate DisjointSystems(systems: seq<System>)
  {
    forall i, j | 0 <= i < |systems| && 0 <= j < |systems| && i != j :: systems[i].Repr !! systems[j].Repr
  }

  /** The objects the systems own, together. */
  ghost function SystemsRepr(systems: seq<System>): (r: set<object>)
    ensures forall i | 0 <= i < |systems| :: systems[i].Repr <= r
  {
    if systems == [] then {} else systems[0].Repr + SystemsRepr(systems[1..])
  }

  class Organism {
    const organismId: string
    const systemCycles: seq<System>
    const engine: Engine.Sequencer
    var currentState: State
    ghost const Repr: set<object>

    ghost predicate Valid()
      reads this, Repr
    {
      && this in Repr && engine in Repr
      && engine.Valid() && engine.stages == Engine.Stages
      && (forall i | 0 <= i < |systemCycles| ::
            && systemCycles[i] in Repr && systemCycles[i].Repr <= Repr
            && this !in systemCycles[i].Repr && engine !in systemCycles[i].Repr
            && systemCycles[i].Valid())
      && DisjointSystems(systemCycles)
    }

    /** The `i`-th system is a valid part of this organism's footprint. */
    ghost predicate ChildIn(i: nat)
      reads Repr
      requires i < |systemCycles|
    {
      systemCycles[i] in Repr && systemCycles[i].Repr <= Repr && systemCycles[i].Valid()
    }

    ghost function Model(): Snapshot
      reads this, Repr
      requires Valid()
    {
      Snapshot(engine.index, engine.steps, currentState,
               seq(|systemCycles|, i reads Repr requires 0 <= i < |systemCycles| && ChildIn(i) =>
                     systemCycles[i].Model()))
    }

    constructor (organismId: string, initialState: State, systemCycles: seq<System>)
      requires forall i | 0 <= i < |systemCycles| :: systemCycles[i].Valid()
      requires DisjointSystems(systemCycles)
      ensures Valid() && fresh(Repr - SystemsRepr(systemCycles))
      ensures this.organismId == organismId
      ensures this.systemCycles == systemCycles
      ensures Model().index == 0 && Model().steps == 0
      ensures Model().state == Merge(initialState, map["organism_id" := Str(organismId)])
      ensures |Model().children| == |systemCycles|
      ensures forall i | 0 <= i < |systemCycles| :: Model().children[i] == old(systemCycles[i].Model())
    {
      this.organismId := organismId;
      this.systemCycles := systemCycles;
      var e := new Engine.Sequencer(Engine.Stages);
      engine := e;
      currentState := Merge(initialState, map["organism_id" := Str(organismId)]);
      Repr := {this, e} + SystemsRepr(systemCycles);
    }

    /** The commit hook: the committed state becomes the current state. */
    method UpdateState(newState: State, stage: string)
      modifies this`currentState
      ensures currentState == newState
    {
      currentState := newState;
    }

    /** The error hook only reports; the current state stays as it was. */
    method HandleError(error: Error, stage: string, state: State)
      ensures currentState == old(currentState)
    {
    }

    /** One pass of the Iteration loop: the `i`-th system takes one step and
        no other system changes. */
    method StepChild(i: nat)
      requires Valid() && i < |systemCycles|
      modifies Repr - {this, engine}
      ensures Valid()
      ensures systemCycles[i].Model() == Next(SystemLevel, old(systemCycles[i].Model()))
      ensures forall j | 0 <= j < |systemCycles| && j != i :: systemCycles[j].Model() == old(systemCycles[j].Model())
    {
      ghost var components := systemCycles[i].Step();
    }

    /** The Iteration stage: step every system once, in list order, and
        return the state unchanged. */
    method Iteration(state: State) returns (r: State, ghost stepped: seq<System>)
      requires Valid()
      modifies Repr - {this, engine}
      ensures Valid()
      ensures r == state
      ensures stepped == systemCycles
      ensures Model() == old(Model()).(children := NextAll(SystemLevel, old(Model()).children))
    {
      ghost var before := Model().children;
      stepped := [];
      for i := 0 to |systemCycles|
        invariant Valid()
        invariant stepped == systemCycles[..i]
        invariant forall j | 0 <= j < i :: systemCycles[j].Model() == Next(SystemLevel, before[j])
        invariant forall j | i <= j < |systemCycles| :: systemCycles[j].Model() == before[j]
      {
        StepChild(i);
        stepped := stepped + [systemCycles[i]];
      }
      r := state;
      ghost var expected := NextAll(SystemLevel, before);
      forall i | 0 <= i < |systemCycles|
        ensures Model().children[i] == expected[i]
      {
        NextAllAt(SystemLevel, before, i);
      }
      assert Model().children == expected;
    }

    /** What the engine does once a stage function has returned: commit the
        result with `update_state` and move on to the next stage. */
    method Commit(result: State, stage: string)
      requires Valid()
      modifies this`currentState, engine
      ensures Valid()
      ensures Model() == Snapshot(Succ(old(engine.index)), old(engine.steps) + 1, result, old(Model()).children)
    {
      ghost var before := Model().children;
      UpdateState(result, stage);
      engine.Advance();
      assert forall i | 0 <= i < |systemCycles| :: Model().children[i] == before[i];
      assert Model().children == before;
    }

    /** One `engine.next_stage()` of the organism. Only Iteration reaches
        the systems. */
    method NextStage() returns (ghost stepped: seq<System>)
      requires Valid()
      modifies Repr
      ensures Valid()
      ensures Model() == Next(OrganismLevel, old(Model()))
      ensures stepped == SteppedAt(old(engine.index), systemCycles)
    {
      ghost var before := Model();
      var stage := engine.CurrentStage();
      var result;
      stepped := [];
      if stage == "Iteration" {
        result, stepped := Iteration(currentState);
      } else {
        result := StageFunction(OrganismLevel, stage, currentState);
      }
      ghost var children := Model().children;
      Commit(result, stage);
      NextFromParts(OrganismLevel, before, result, children, Model());
    }

    /** `run_simulation_step`: four `next_stage` calls, one full cycle of the
        organism, in which the systems are stepped once each, in list order. */
    method RunSimulationStep() returns (ghost stepped: seq<System>)
      requires Valid()
      modifies Repr
      ensures Valid()
      ensures Model() == Tick(old(Model()))
      ensures stepped == systemCycles
    {
      ghost var v := Model();
      ghost var s0 := NextStage();
      ghost var a := Model();
      ghost var s1 := NextStage();
      ghost var b := Model();
      ghost var s2 := NextStage();
      ghost var c := Model();
      ghost var s3 := NextStage();
      stepped := s0 + s1 + s2 + s3;
      SteppedOnceInFour(v.index, systemCycles);
      TickIsFourSteps(v, a, b, c, Model());
    }

    /** The committed state, the one `Model()` reports. */
    function GetState(): (s: State)
      reads this
      ensures s == currentState
    {
      currentState
    }
  }
}
