/** The stage sequencer that every node wraps (the `MICT` engine). Only what
    its call sites show is modelled: a fixed, non-empty list of stage names,
    an index into it, and `next_stage` moving the index on cyclically. The
    stage-function table and the commit and error hooks belong to the owner
    (see `Hierarchy.StageFunction` and the node classes). */
module Engine {

  /** The stage list every node configures, in this order. */
  const Stages: seq<string> := ["Mapping", "Iteration", "Checking", "Transformation"]

  class Sequencer {
    const stages: seq<string>
    var index: nat
    /** How many times `next_stage` has run on this engine. */
    ghost var steps: nat

    ghost predicate Valid()
      reads this
    {
      |stages| > 0 && index < |stages|
    }

    /** A fresh engine starts at the first stage. */
    constructor (stages: seq<string>)
      requires |stages| > 0
      ensures Valid()
      ensures this.stages == stages && index == 0 && steps == 0
    {
      this.stages := stages;
      index := 0;
      steps := 0;
    }

    /** The name of the stage the next `next_stage` will run. */
    function CurrentStage(): (name: string)
      reads this
      requires Valid()
      ensures name in stages
    {
      stages[index]
    }

    /** Moves to the following stage, wrapping around after the last one. */
    method Advance()
      requires Valid()
      modifies this
      ensures Valid()
      ensures steps == old(steps) + 1
      ensures index == (old(index) + 1) % |stages|
    {
      index := if index + 1 == |stages| then 0 else index + 1;
      steps := steps + 1;
    }
  }
}
