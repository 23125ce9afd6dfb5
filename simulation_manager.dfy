/** `SimulationManager`: builds the example tree and drives the organism tick
    by tick, keeping a simulated clock. Wall-clock pacing is not modelled. */
module Simulation {
  import opened Values
  import opened Hierarchy
  import opened CellCycle
  import opened ComponentCycle
  import opened SystemCycle
  import opened OrganismCycle

  /** The configured simulation speed: ticks per simulated second. */
  const StepsPerSecond: nat := 100

  /** The organism's example initial record:
      `{'position': (0, 0), 'velocity': (0, 0), 'hunger': 0.5}`. */
  function OrganismInitialState(): State
  {
    map["position" := Tuple([Int(0), Int(0)]),
        "velocity" := Tuple([Int(0), Int(0)]),
        "hunger" := Real(0.5)]
  }

  /** The example tree as `initialize_simulation` builds it, seen before any
      tick: `worm1` owns `nervous_sys` and `muscular_sys`, which own
      `circuit1` and `muscle_group_a`; the cell lists are empty slices. */
  function ExampleTree(): Snapshot
  {
    Snapshot(0, 0, Merge(OrganismInitialState(), map["organism_id" := Str("worm1")]), [
      Snapshot(0, 0, Merge(map[], map["system_id" := Str("nervous_sys")]), [
        Snapshot(0, 0, Merge(map[], map["component_id" := Str("circuit1")]), [])]),
      Snapshot(0, 0, Merge(map[], map["system_id" := Str("muscular_sys")]), [
        Snapshot(0, 0, Merge(map[], map["component_id" := Str("muscle_group_a")]), [])])])
  }

  /** What `n` ticks do to the example tree: the organism has run `4 * n`
      stages and is back at Mapping, each system has been stepped `n` times
      and each component `(n + 2) / 4` times, and, every stage of these
      levels being the identity, no state has changed. */
  lemma ExampleTreeAfterTicks(n: nat)
    ensures var t := Ticks(ExampleTree(), n);
      && t.index == 0 && t.steps == 4 * n && t.state == ExampleTree().state
      && |t.children| == 2
      && (forall j | 0 <= j < 2 ::
            && t.children[j].steps == n
            && t.children[j].state == ExampleTree().children[j].state
            && |t.children[j].children| == 1
            && t.children[j].children[0].steps == (n + 2) / 4
            && t.children[j].children[0].state == ExampleTree().children[j].children[0].state)
  {
    var v := ExampleTree();
    ExampleTreeIsFresh();
    FreshTreeAfterTicks(v, n, 0, 0);
    forall j | 0 <= j < 2
      ensures Ticks(v, n).children[j].steps == n
      ensures Ticks(v, n).children[j].state == v.children[j].state
      ensures |Ticks(v, n).children[j].children| == 1
      ensures Ticks(v, n).children[j].children[0].steps == (n + 2) / 4
      ensures Ticks(v, n).children[j].children[0].state == v.children[j].children[0].state
    {
      FreshTreeAfterTicks(v, n, j, 0);
    }
  }

  /** The example tree's ids: `worm1` over `nervous_sys` and `muscular_sys`,
      which own `circuit1` and `muscle_group_a`, none of which owns a cell;
      each system's and component's record holds its id alone. */
  lemma ExampleTreeShape()
    ensures var r := ExampleTree();
      && r.index == 0 && r.steps == 0 && |r.children| == 2
      && (forall j | 0 <= j < 2 :: |r.children[j].children| == 1 && r.children[j].children[0].children == [])
      && r.children[0].state.Keys == r.children[1].state.Keys == {"system_id"}
      && r.children[0].state["system_id"] == Str("nervous_sys")
      && r.children[1].state["system_id"] == Str("muscular_sys")
      && r.children[0].children[0].state.Keys == r.children[1].children[0].state.Keys == {"component_id"}
      && r.children[0].children[0].state["component_id"] == Str("circuit1")
      && r.children[1].children[0].state["component_id"] == Str("muscle_group_a")
  {
  }

  /** The organism's record in the example tree: the example initial
      record, at rest at the origin and half hungry, with its id added. */
  lemma ExampleOrganismRecord()
    ensures var r := ExampleTree().state;
      && r.Keys == {"position", "velocity", "hunger", "organism_id"}
      && r["organism_id"] == Str("worm1") && r["hunger"] == Real(0.5)
      && r["position"] == r["velocity"] == Tuple([Int(0), Int(0)])
  {
  }

  /** The example tree is freshly built: two systems of one component each. */
  lemma ExampleTreeIsFresh()
    ensures Fresh(OrganismLevel, ExampleTree())
    ensures |ExampleTree().children| == 2
    ensures forall j | 0 <= j < 2 :: |ExampleTree().children[j].children| == 1
  {
    var v := ExampleTree();
    assert Fresh(SystemLevel, v.children[0]) by {
      assert Fresh(ComponentLevel, v.children[0].children[0]);
    }
    assert Fresh(SystemLevel, v.children[1]) by {
      assert Fresh(ComponentLevel, v.children[1].children[0]);
    }
  }

  /** The simulated clock after `n` ticks: each tick is `1 / steps_per_second`
      simulated seconds. */
  function SimulatedTime(n: nat): real
  {
    n as real / StepsPerSecond as real
  }

  /** One more tick adds exactly one tick's length to the clock. */
  lemma SimulatedTimeStep(n: nat)
    ensures SimulatedTime(n + 1) == SimulatedTime(n) + 1.0 / StepsPerSecond as real
  {
  }

  /** A system owning one component, which owns no cells, as step 2 and
      step 3 of `initialize_simulation` build them with empty initial records. */
  method NewSystem(systemId: string, systemType: string, componentId: string, componentType: string)
    returns (s: System)
    ensures s.Valid() && fresh(s.Repr)
    ensures s.Model() == Snapshot(0, 0, Merge(map[], map["system_id" := Str(systemId)]), [
              Snapshot(0, 0, Merge(map[], map["component_id" := Str(componentId)]), [])])
    ensures s.systemId == systemId && s.systemType == systemType && |s.componentCycles| == 1
    ensures s.componentCycles[0].componentId == componentId
    ensures s.componentCycles[0].componentType == componentType
    ensures s.componentCycles[0].subCycles == []
  {
    var cells: seq<Cell> := [];
    var component := new Component(componentId, componentType, map[], cells);
    s := new System(systemId, systemType, map[], [component]);
    SnapshotEquality(s.Model(), Snapshot(0, 0, Merge(map[], map["system_id" := Str(systemId)]), [
      Snapshot(0, 0, Merge(map[], map["component_id" := Str(componentId)]), [])]));
  }

  /** Steps 1 to 4 of `initialize_simulation`: the example tree, freshly built.
      The neuron and muscle-cell lists are empty, so both components own no
      cells (`neurons[0:10]` and `muscle_cells[0:5]` are empty slices). */
  method NewExampleOrganism() returns (worm: Organism)
    ensures worm.Valid() && fresh(worm.Repr)
    ensures worm.Model() == ExampleTree()
  {
    var nervous := NewSystem("nervous_sys", "nervous_system", "circuit1", "neural_circuit");
    ghost var nervousModel := nervous.Model();
    var muscular := NewSystem("muscular_sys", "muscular_system", "muscle_group_a", "muscle_group");
    ghost var muscularModel := muscular.Model();
    assert nervous.Repr !! muscular.Repr;
    worm := new Organism("worm1", OrganismInitialState(), [nervous, muscular]);
    assert SystemsRepr([nervous, muscular]) == nervous.Repr + SystemsRepr([muscular]);
    assert SystemsRepr([muscular]) == muscular.Repr + SystemsRepr([]);
    SnapshotEquality(worm.Model(), Snapshot(0, 0, worm.Model().state, [nervousModel, muscularModel]));
    ExampleTreeParts(worm.Model(), nervousModel, muscularModel);
  }

  /** The example tree put together from its two systems. */
  lemma ExampleTreeParts(v: Snapshot, nervous: Snapshot, muscular: Snapshot)
    requires nervous == ExampleTree().children[0] && muscular == ExampleTree().children[1]
    requires v == Snapshot(0, 0, Merge(OrganismInitialState(), map["organism_id" := Str("worm1")]), [nervous, muscular])
    ensures v == ExampleTree()
  {
  }

  class SimulationManager {
    var organism: Organism?
    var isRunning: bool
    /** Simulated seconds. */
    var simulationTime: real
    const stepsPerSecond: nat
    /** The ticks run since the organism was built. */
    ghost var ticks: nat
    ghost var Repr: set<object>

    ghost predicate Valid()
      reads this, Repr
    {
      && this in Repr
      && stepsPerSecond == StepsPerSecond
      && simulationTime == SimulatedTime(ticks)
      && (organism != null ==>
            && organism in Repr && organism.Repr <= Repr && this !in organism.Repr
            && organism.Valid())
    }

    constructor ()
      ensures Valid() && fresh(Repr)
      ensures organism == null && !isRunning && simulationTime == 0.0 && stepsPerSecond == StepsPerSecond
    {
      organism := null;
      isRunning := false;
      simulationTime := 0.0;
      stepsPerSecond := StepsPerSecond;
      ticks := 0;
      Repr := {this};
    }

    /** `initialize_simulation`: build the example tree and reset the
        simulated clock. */
    method InitializeSimulation()
      requires Valid()
      modifies this
      ensures Valid() && fresh(Repr - {this})
      ensures organism != null && fresh(organism) && organism.Model() == ExampleTree()
      ensures simulationTime == 0.0 && isRunning == old(isRunning)
    {
      var worm := NewExampleOrganism();
      Install(worm);
    }

    /** Attach a freshly built organism and restart the clock. */
    method Install(worm: Organism)
      requires Valid() && worm.Valid() && this !in worm.Repr
      modifies this
      ensures Valid() && organism == worm && Repr == {this} + worm.Repr
      ensures simulationTime == 0.0 && ticks == 0 && isRunning == old(isRunning)
    {
      organism := worm;
      simulationTime := 0.0;
      ticks := 0;
      Repr := {this} + worm.Repr;
    }

    /** One pass of the `run_simulation` loop body: one organism tick, then
        the clock moves on by `1 / steps_per_second`. */
    method Tick()
      requires Valid() && organism != null
      modifies Repr
      ensures Valid() && Repr == old(Repr) && organism == old(organism)
      ensures organism.Model() == Hierarchy.Tick(old(organism.Model()))
      ensures isRunning == old(isRunning)
      ensures ticks == old(ticks) + 1
      ensures simulationTime == old(simulationTime) + 1.0 / stepsPerSecond as real
    {
      ghost var systems := organism.RunSimulationStep();
      SimulatedTimeStep(ticks);
      simulationTime := simulationTime + 1.0 / stepsPerSecond as real;
      ticks := ticks + 1;
    }

    /** `run_simulation`. Without an organism it returns at once. Otherwise
        it sets the run flag and loops while the flag is set; each pass runs
        one tick. The stopping condition of the loop body is modelled as
        `stop_simulation()` once `stopAfter` ticks have run in this call;
        since the flag is tested only at the loop head, the pass in progress
        completes, and the first pass always runs. */
    method RunSimulation(stopAfter: nat) returns (ran: nat)
      requires Valid()
      modifies Repr
      ensures Valid() && Repr == old(Repr) && organism == old(organism)
      ensures old(organism) == null ==>
                ran == 0 && isRunning == old(isRunning) && simulationTime == old(simulationTime)
      ensures old(organism) != null ==>
                && ran == (if stopAfter == 0 then 1 else stopAfter)
                && !isRunning
                && ticks == old(ticks) + ran
                && simulationTime == SimulatedTime(old(ticks) + ran)
                && organism.Model() == Ticks(old(organism.Model()), ran)
    {
      ran := 0;
      if organism == null {
        return;
      }
      var total := if stopAfter == 0 then 1 else stopAfter;
      ghost var start := organism.Model();
      isRunning := true;
      while isRunning
        invariant Valid() && Repr == old(Repr) && organism == old(organism) && organism != null
        invariant ran <= total
        invariant isRunning ==> ran < total
        invariant !isRunning ==> ran == total
        invariant ticks == old(ticks) + ran
        invariant organism.Model() == Ticks(start, ran)
        decreases total - ran
      {
        ghost var before := organism.Model();
        Tick();
        TicksNext(start, ran, before, organism.Model());
        ran := ran + 1;
        if ran >= stopAfter {
          StopSimulation();
        }
      }
    }

    /** `stop_simulation`: clear the run flag; nothing else changes. */
    method StopSimulation()
      modifies this`isRunning
      ensures !isRunning
    {
      isRunning := false;
    }
  }
}
