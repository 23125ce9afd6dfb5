# Hierarchical four-stage cycles of the worm model

This project models the hierarchical cycle composition of the `mict_openworm_model`
C. elegans simulation and proves properties of it.

The simulation is a tree of nodes:

- a cell (`CellMICT`);
- a component (`ComponentMICT`), which owns cells;
- a system (`SystemMICT`), which owns components;
- the organism (`OrganismMICT`), which owns systems.

Each node wraps an engine. The engine runs a fixed list of four stages in a cycle:
Mapping, Iteration, Checking and Transformation. A node's `step()` is one `next_stage` of its
engine:

1. run the current stage's function on the node's state;
2. commit the result through the node's `_update_state`;
3. move to the next stage.

The Iteration stage of a non-leaf node steps every child once, in list order. So one organism
tick (`run_simulation_step`, four `next_stage` calls) advances each system by one stage only.
Components move once per four system steps, and cells once per four component steps: the tree
runs at several rates.

`SimulationManager` builds an example tree. It drives the organism tick by tick and keeps a
simulated clock. Three example programs give concrete stage functions:

- a leaky integrate-and-fire neuron;
- a muscle cell driven by a square wave;
- two neurons connected through a registry of neuron states, stepped in lockstep by a driver loop.

The project has one module per source file, plus three shared modules:

- `Values` holds the Python values, records and exceptions.
- `Engine` holds the sequencer.
- `Hierarchy` holds the abstract tree and the meaning of one step at each level.

Each node class keeps its engine and its `currentState` as fields. Its methods are proved
against the pure function `Hierarchy.Next` on `Snapshot` values. Those values record each
node's stage index, how many steps it has taken, its state, and its children. The counting
facts about the multi-rate tree are lemmas about `Next`, `Steps`, `Tick` and `Ticks`.

In the source an engine and its node share the same dict object, because every stage returns
the dict it was given. The model therefore keeps one state per node.

A stage function that raises is modelled as returning an `Error`. The exceptions are:

- `KeyError` for a missing key;
- `TypeError` for arithmetic or an ordering comparison on a non-number, or for subscripting a
  non-dict;
- `ZeroDivisionError`.

Errors are raised in the order the source evaluates its operands. Python's `bool` counts as a
number. Floats are modelled as reals.

## Model

| member | source | states |
|---|---|---|
| Engine.Sequencer.constructor | src/python/cell_cycle.py:58-71 | a new engine holds the configured stage list and starts at the first stage with no step taken |
| Engine.Sequencer.CurrentStage | src/python/cell_cycle.py:59 | the stage that runs next is one of the configured stages |
| Engine.Sequencer.Advance | src/python/cell_cycle.py:86-88 | the index moves to the next stage, wrapping after the last, and one more step is counted |
| Hierarchy.StageNames | src/python/cell_cycle.py:59 | Mapping, Iteration, Checking and Transformation sit at positions 0 to 3, each stage at exactly one position |
| Hierarchy.AfterIsModular | src/python/cell_cycle.py:59 | moving on k stages from position i lands on position (i + k) mod 4 |
| Hierarchy.StageFunction | src/python/cell_cycle.py:21-55 | every stage returns its state unchanged, except a cell's Transformation, which removes `inputs` (absent or not) and keeps every other key |
| Hierarchy.Next | src/python/cell_cycle.py:86-88 | one `next_stage` moves the index to (index + 1) mod 4, counts one more step, keeps the number of children, and leaves a non-leaf node's state unchanged |
| Hierarchy.NextAll | src/python/component_cycle.py:43-44 | stepping a list of children gives a list of the same length |
| Hierarchy.NextAllAt | src/python/component_cycle.py:43-44 | the i-th child after the fan-out is the i-th child after one step of its own |
| Hierarchy.NextChild | src/python/component_cycle.py:33-46 | one `next_stage` steps the j-th child once when it runs Iteration, and leaves it untouched at every other stage |
| Hierarchy.NextFromParts | src/python/component_cycle.py:91-93 | a stage result committed together with the children as the stage left them, plus the next index and one more step, is one `next_stage` of the node |
| Hierarchy.Steps | src/python/cell_cycle.py:86-88 | k consecutive `next_stage` calls count k more steps and keep the number of children |
| Hierarchy.Tick | src/python/organism_cycle.py:91-96 | `run_simulation_step` (four `next_stage` calls) returns the organism to the stage it started at, counts four steps, and keeps the number of systems |
| Hierarchy.Ticks | src/python/simulation_manager.py:64-69 | n passes of the simulation loop leave the organism at its starting stage with 4n more steps and the same number of systems |
| Hierarchy.TicksNext | src/python/simulation_manager.py:64-69 | one more tick after n ticks is tick n + 1 |
| Hierarchy.StepsCounters | src/python/cell_cycle.py:86-88 | after k steps the index has moved on k positions and k more steps are counted; the number of children never changes |
| Hierarchy.StepsChildren | src/python/component_cycle.py:33-46 | after k steps of a parent, each child has taken exactly as many steps as the parent ran Iteration stages, and nothing else happened to it |
| Hierarchy.StepsState | src/python/component_cycle.py:23-64 | no non-leaf stage changes the node's state; a cell's state loses `inputs` once a Transformation has run, and is otherwise unchanged |
| Hierarchy.OccurrencesInFour | src/python/organism_cycle.py:91-96 | any four consecutive steps run each stage exactly once and end at the stage they started from |
| Hierarchy.IterationsFromStart | src/python/system_cycle.py:32-43 | k steps from the first stage run Iteration exactly (k + 2) div 4 times |
| Hierarchy.TickIsFourSteps | src/python/organism_cycle.py:91-96 | four successive organism `next_stage` calls make up one tick |
| Hierarchy.SteppedOnceInFour | src/python/organism_cycle.py:41-42 | whatever stage a cycle of four starts at, the children are stepped in exactly one of its steps, each once, in list order |
| Hierarchy.TickStepsEachSystemOnce | src/python/organism_cycle.py:91-96 | a tick leaves the organism's index and state as they were, counts four steps, and steps every system exactly once |
| Hierarchy.TickStepsSystem | src/python/organism_cycle.py:41-42 | the j-th system after a tick is the j-th system after one step of its own |
| Hierarchy.TicksStepSystems | src/python/organism_cycle.py:91-96 | after n ticks every system has been stepped exactly n times, and the organism has counted 4n steps and is back at its starting stage |
| Hierarchy.FreshTreeAfterTicks | src/python/system_cycle.py:40-41 | from freshly built nodes, n ticks step each system n times and each component (n + 2) div 4 times, with no non-leaf state changed |
| Hierarchy.FreshCellsAfterTicks | src/python/component_cycle.py:43-44 | from freshly built nodes, after n ticks each cell has taken ((n + 2) div 4 + 2) div 4 steps |
| CellCycle.InitialCellState | src/python/cell_cycle.py:60 | the initial state is the caller's record with `cell_id` and `cell_type` set to the arguments, overriding same-named keys, and every other key kept |
| Values.Merge | src/python/cell_cycle.py:60 | `{**base, **overrides}` has the keys of both, the overriding value for every key of `overrides`, and the base value for every other key |
| CellCycle.NeighborsOrDefault | src/python/cell_cycle.py:18 | no list given means the empty list; a given list is kept as is |
| CellCycle.Cell.constructor | src/python/cell_cycle.py:15-72 | a new cell holds its id, type and neighbours, and a fresh engine at the first stage, with the merged initial state |
| CellCycle.Cell.UpdateState | src/python/cell_cycle.py:74-79 | the committed state becomes the current state, and nothing else changes |
| CellCycle.Cell.HandleError | src/python/cell_cycle.py:81-84 | reporting an error leaves the current state alone |
| CellCycle.Cell.Step | src/python/cell_cycle.py:86-88 | a step is one `next_stage`: the cell's new snapshot is `Next` of the old one |
| CellCycle.Cell.GetState | src/python/cell_cycle.py:90-92 | returns the committed state |
| ComponentCycle.Component.constructor | src/python/component_cycle.py:17-81 | a new component owns the given cells, in order, and starts at the first stage with `component_id` merged into its record |
| ComponentCycle.Component.UpdateState | src/python/component_cycle.py:83-84 | the committed state becomes the current state |
| ComponentCycle.Component.HandleError | src/python/component_cycle.py:87-89 | reporting an error leaves the current state alone |
| ComponentCycle.Component.StepChild | src/python/component_cycle.py:43-44 | one pass of the Iteration loop steps the i-th cell once and changes no other cell |
| ComponentCycle.Component.Iteration | src/python/component_cycle.py:33-46 | Iteration steps every cell exactly once, in list order, and returns the state unchanged |
| ComponentCycle.Component.Commit | src/python/component_cycle.py:80-84 | once a stage function has returned, its result is committed, the engine moves to the next stage, and the cells stay as the stage left them |
| ComponentCycle.Component.Step | src/python/component_cycle.py:91-93 | a step is one `next_stage`: the new snapshot is `Next` of the old one, and cells are stepped only at Iteration |
| ComponentCycle.Component.GetState | src/python/component_cycle.py:95-97 | returns the committed state |
| ComponentCycle.Component.GetSubCycleStates | src/python/component_cycle.py:99-101 | one entry per cell, the i-th being the i-th cell's `get_state()` |
| SystemCycle.System.constructor | src/python/system_cycle.py:17-76 | a new system owns the given components, in order, and starts at the first stage with `system_id` merged into its record |
| SystemCycle.System.UpdateState | src/python/system_cycle.py:78-79 | the committed state becomes the current state |
| SystemCycle.System.HandleError | src/python/system_cycle.py:82-84 | reporting an error leaves the current state alone |
| SystemCycle.System.StepChild | src/python/system_cycle.py:40-41 | one pass of the Iteration loop steps the i-th component once and changes no other component |
| SystemCycle.System.Iteration | src/python/system_cycle.py:32-43 | Iteration steps every component exactly once, in list order, and returns the state unchanged |
| SystemCycle.System.Commit | src/python/system_cycle.py:75-79 | once a stage function has returned, its result is committed, the engine moves to the next stage, and the components stay as the stage left them |
| SystemCycle.System.Step | src/python/system_cycle.py:86-88 | a step is one `next_stage`: the new snapshot is `Next` of the old one, and components are stepped only at Iteration |
| SystemCycle.System.GetState | src/python/system_cycle.py:90-92 | returns the committed state |
| OrganismCycle.Organism.constructor | src/python/organism_cycle.py:16-80 | a new organism owns the given systems, in order, and starts at the first stage with `organism_id` merged into its record |
| OrganismCycle.Organism.UpdateState | src/python/organism_cycle.py:82-83 | the committed state becomes the current state |
| OrganismCycle.Organism.HandleError | src/python/organism_cycle.py:87-89 | reporting an error leaves the current state alone |
| OrganismCycle.Organism.StepChild | src/python/organism_cycle.py:41-42 | one pass of the Iteration loop steps the i-th system once and changes no other system |
| OrganismCycle.Organism.Iteration | src/python/organism_cycle.py:31-46 | Iteration steps every system exactly once, in list order, and returns the state unchanged |
| OrganismCycle.Organism.Commit | src/python/organism_cycle.py:79-83 | once a stage function has returned, its result is committed, the engine moves to the next stage, and the systems stay as the stage left them |
| OrganismCycle.Organism.NextStage | src/python/organism_cycle.py:93 | one `engine.next_stage()`: the new snapshot is `Next` of the old one, and systems are stepped only at Iteration |
| OrganismCycle.Organism.RunSimulationStep | src/python/organism_cycle.py:91-96 | four `next_stage` calls make one tick, in which the systems are stepped exactly once each, in list order |
| OrganismCycle.Organism.GetState | src/python/organism_cycle.py:98-100 | returns the committed state |
| Simulation.ExampleTreeShape | src/python/simulation_manager.py:37-51 | the tree `ExampleTree` that `initialize_simulation` builds: `worm1` over `nervous_sys` and `muscular_sys`, owning `circuit1` and `muscle_group_a`, no cells; each system and component record holds its id alone |
| Simulation.ExampleOrganismRecord | src/python/simulation_manager.py:50-51 | the organism's record is `OrganismInitialState`, at the origin, at rest and with hunger 0.5, plus `organism_id` `worm1` |
| Simulation.ExampleTreeIsFresh | src/python/simulation_manager.py:37-51 | the example tree is freshly built: two systems of one component each |
| Simulation.ExampleTreeAfterTicks | src/python/simulation_manager.py:64-75 | after n ticks of the example tree, the organism has run 4n stages and is back at Mapping; each system has been stepped n times and each component (n + 2) div 4 times; no state has changed |
| Simulation.SimulatedTimeStep | src/python/simulation_manager.py:75 | each tick adds exactly 1/steps_per_second simulated seconds |
| Simulation.NewSystem | src/python/simulation_manager.py:37-45 | a system with the given id and type owning one fresh component with no cells, both at the first stage with their ids merged into empty records |
| Simulation.NewExampleOrganism | src/python/simulation_manager.py:37-51 | builds `worm1` over `[nervous_sys, muscular_sys]`, owning `[circuit1]` and `[muscle_group_a]`, all fresh and at the first stage |
| Simulation.ExampleTreeParts | src/python/simulation_manager.py:50-51 | the organism snapshot over the two example systems is the example tree |
| Simulation.SimulationManager.constructor | src/python/simulation_manager.py:13-17 | a new manager has no organism, is not running, sits at time 0, and runs 100 ticks per simulated second |
| Simulation.SimulationManager.InitializeSimulation | src/python/simulation_manager.py:19-54 | installs a freshly built example tree and resets the clock to 0 |
| Simulation.SimulationManager.Install | src/python/simulation_manager.py:51-53 | the organism becomes the given one and the clock restarts at 0; the run flag is untouched |
| Simulation.SimulationManager.Tick | src/python/simulation_manager.py:69-75 | one loop pass is one organism tick and adds 1/steps_per_second to the clock |
| Simulation.SimulationManager.RunSimulation | src/python/simulation_manager.py:56-92 | with no organism, nothing happens; otherwise the loop runs until stopped, with at least one tick, and after ran ticks the tree is `Ticks(old tree, ran)` and the clock reads ran/steps_per_second more |
| Simulation.SimulationManager.StopSimulation | src/python/simulation_manager.py:94-96 | clears the run flag and changes nothing else |
| SimpleNeuron.NeuronMapping | examples/simple_neuron_cycle.py:19-24 | keeps an existing `input_current`, supplies 1.6 when absent, and leaves every other key alone |
| SimpleNeuron.MappingIdempotent | examples/simple_neuron_cycle.py:22 | a second Mapping changes nothing |
| SimpleNeuron.LifRelaxation | examples/simple_neuron_cycle.py:35-36 | one Euler step shrinks the distance to the equilibrium V_REST + R·I by the factor 1 - dt/tau |
| SimpleNeuron.LifUpdate | examples/simple_neuron_cycle.py:35-36 | the Euler step changes the potential by dt/tau times its distance to the equilibrium V_REST + R·I |
| SimpleNeuron.LifApproachesEquilibrium | examples/simple_neuron_cycle.py:35-36 | with 0 < dt <= tau, the new potential lies between the old one and the equilibrium, and the equilibrium is a fixed point |
| SimpleNeuron.DefaultInputReachesThreshold | examples/simple_neuron_cycle.py:10-22 | under the default input the equilibrium lies above the firing threshold |
| SimpleNeuron.NeuronIteration | examples/simple_neuron_cycle.py:26-41 | succeeds exactly on readable records; sets the Euler-updated potential and clears `fired_this_step`, keeping every other key. Errors, in source order: `KeyError` for the first missing key of `membrane_potential`, `input_current`, `params`, `R_M`, `TAU_M`, `DT`; `TypeError` for a `params` that is not a dict; `TypeError` when the potential, the input current, `R_M` or `TAU_M` is not a number; `ZeroDivisionError` when `TAU_M` is zero and those are numbers; `TypeError` when only `DT` is not a number |
| SimpleNeuron.NeuronChecking | examples/simple_neuron_cycle.py:43-49 | below the threshold the record is unchanged; at or above it `fired_this_step` is set (and `cell_id` is required by the message); a missing or non-numeric potential raises |
| SimpleNeuron.NeuronTransformation | examples/simple_neuron_cycle.py:51-60 | output 1 with the potential reset and the flag cleared exactly when fired (`Fired`: `state.get('fired_this_step', False)` is truthy), otherwise output 0 with the potential kept; the output is 0 or 1 and the flag is never left true |
| SimpleNeuron.NeuronStage | examples/simple_neuron_cycle.py:80-85 | in the stage table only Iteration and Checking can raise, no stage removes a key from the record, and Transformation leaves an output of 0 or 1 |
| SimpleNeuron.CycleFromTable | examples/simple_neuron_cycle.py:80-85 | the `stageFunctions` table (`NeuronStage`), looked up by the current stage's name for four `step()` calls from Mapping (`RunSteps` of `TableStep`), runs exactly `NeuronCycle` |
| SimpleNeuron.RunStepsCycles | examples/simple_neuron_cycle.py:89-90 | the example's step loop from a fresh engine: `4(n + 1)` steps are one full cycle, stopping at its error, followed by `4n` more steps from Mapping |
| SimpleNeuron.NeuronCycle | examples/simple_neuron_cycle.py:19-60 | the four stages in order, stopping at the first error; a completed cycle leaves an output of 0 or 1 and the firing flag down |
| SimpleNeuron.NeuronCycleOutput | examples/simple_neuron_cycle.py:19-60 | a full cycle emits 1 exactly when the integrated potential reached the threshold and then resets it; otherwise it emits 0 and keeps it; the flag ends down; the cycle fails exactly on unreadable records or a firing neuron without `cell_id` |
| SimpleNeuron.ExampleFirstCycle | examples/simple_neuron_cycle.py:64-90 | the example neuron's first cycle raises the potential from -70 to -69.84 mV and does not fire |
| SimpleMuscle.SquareWavePeriodic | examples/simple_muscle_cycle.py:20 | the input wave repeats every 100 counts |
| SimpleMuscle.SquareWaveShape | examples/simple_muscle_cycle.py:20 | the wave is 1 exactly on the first 50 counts of each period of 100 |
| SimpleMuscle.SquareWave | examples/simple_muscle_cycle.py:20 | the input is always 0 or 1 |
| SimpleMuscle.MuscleMapping | examples/simple_muscle_cycle.py:16-23 | with counter c (0 when missing), sets the input to the wave at c and the counter to c + 1, keeping every other key; a bool counter counts as 0 or 1 and yields an int counter; a float counter is floored for the wave and stays a float; a counter that is not a number raises `TypeError` and nothing else can be raised |
| SimpleMuscle.FloatSquareWave | examples/simple_muscle_cycle.py:20 | the wave of a float counter is the wave of its floor |
| SimpleMuscle.FloorQuotient | examples/simple_muscle_cycle.py:20 | float floor division by 50 equals integer division of the floor by 50 |
| SimpleMuscle.Clamp | examples/simple_muscle_cycle.py:36 | the clamped level lies in [0, MAX_CONTRACTION], and equals the input when the input already does |
| SimpleMuscle.MuscleIteration | examples/simple_muscle_cycle.py:25-40 | raises `KeyError` for a missing level, then for a missing input, and `TypeError` when both are present but one is not a number; otherwise sets a level in [0, MAX_CONTRACTION], contracted or relaxed by the input, keeping every other key |
| SimpleMuscle.ContractMonotone | examples/simple_muscle_cycle.py:30-36 | from a level in range, input raises the level by at most CONTRACTION_RATE·DT and no input lowers it by at most RELAXATION_RATE·DT |
| SimpleMuscle.Contract | examples/simple_muscle_cycle.py:30-36 | the new contraction level always lies in [0, MAX_CONTRACTION] |
| SimpleMuscle.FullContraction | examples/simple_muscle_cycle.py:30-36 | from a relaxed muscle, each of up to 100 steps with input adds exactly 1/100 of the range |
| SimpleMuscle.MuscleChecking | examples/simple_muscle_cycle.py:42-45 | returns the record unchanged |
| SimpleMuscle.MuscleTransformation | examples/simple_muscle_cycle.py:47-51 | returns the record unchanged |
| SimpleMuscle.MuscleCycle | examples/simple_muscle_cycle.py:16-51 | a cycle succeeds exactly when the counter (0 when missing) and the contraction level are numbers; it fails only with `TypeError` or a `KeyError` for the level; it adds the input and the counter and leaves the level in range |
| SimpleMuscle.MuscleCycles | examples/simple_muscle_cycle.py:77-79 | n cycles in a row fail only with `TypeError` or a `KeyError` for the level, and after at least one the level is in range |
| SimpleMuscle.MuscleCyclesCount | examples/simple_muscle_cycle.py:16-79 | with an integer counter c, n cycles never fail, leave the counter at c + n and the last input at the wave of c + n - 1, and keep the level in range |
| TwoNeuron.AddInput | examples/two_neuron_interaction.py:27-29 | an absent source adds nothing; a present one adds its output (0 when missing) times the weight, or raises `TypeError` on a non-number |
| TwoNeuron.Contribution | examples/two_neuron_interaction.py:27-29 | an absent source, or one without `output_signal`, contributes 0; otherwise output times weight |
| TwoNeuron.AccumulateSum | examples/two_neuron_interaction.py:20-29 | with numeric values the loop yields the base plus the weighted sum; if no source is registered, it yields the base itself |
| TwoNeuron.Accumulate | examples/two_neuron_interaction.py:20-29 | the Mapping loop fails only with `TypeError`, from arithmetic on a non-number |
| TwoNeuron.MappingOf | examples/two_neuron_interaction.py:18-34 | a successful Mapping sets `input_current`, empties `received_signals` and keeps every other key; a failing one raises `TypeError`; the entries are `EntriesOf`, `synapse_weights.get(neuron_id, {})`, empty for a neuron with none |
| TwoNeuron.NeuronStageAt | examples/two_neuron_interaction.py:69-74 | the table `create_neuron_stage_functions` returns, by stage position: its Mapping fails only with `TypeError`, and its Transformation never fails and leaves an output of 0 or 1 |
| TwoNeuron.StageTablesAgree | examples/two_neuron_interaction.py:69-74 | past Mapping the two-neuron table holds the single neuron's Iteration, Checking and Transformation under the same names |
| TwoNeuron.Start | examples/two_neuron_interaction.py:95 | the two constructed cells start at Mapping with their initial records, `cell_id` N1 and N2 and `cell_type` `neuron` added, every other key kept (also line 104) |
| TwoNeuron.NeuronMapping | examples/two_neuron_interaction.py:18-34 | the loop computes exactly `MappingOf`: the accumulated current becomes `input_current` and the received signals are cleared |
| TwoNeuron.MappingProperties | examples/two_neuron_interaction.py:20-32 | on success the current is the base (default 1.0) plus the weighted sum of presynaptic outputs; a neuron with no entry gets exactly its base; `received_signals` is empty; nothing else changes; failure is `TypeError` |
| TwoNeuron.ExampleMapping | examples/two_neuron_interaction.py:81-83 | under the example wiring N1 gets its base current, and N2 its base plus 1.5 times N1's output |
| TwoNeuron.RegistryOf | examples/two_neuron_interaction.py:96-105 | the registry maps N1 and N2, and only them, to the two neurons' states |
| TwoNeuron.Pass | examples/two_neuron_interaction.py:113-130 | a successful pass of the driver loop moves each neuron on by one stage |
| TwoNeuron.IterateLockstep | examples/two_neuron_interaction.py:110-126 | passes that each advance both neurons by one stage leave each neuron k stages on after k passes |
| TwoNeuron.PassesLockstep | examples/two_neuron_interaction.py:110-130 | from construction, both neurons are always at the same stage, the one k positions on after k passes |
| TwoNeuron.IterateNext | examples/two_neuron_interaction.py:110 | one more pass after k passes is pass k + 1 |
| TwoNeuron.IterateStaysFailed | examples/two_neuron_interaction.py:110 | once a pass has failed, every later number of passes reports the same error |
| TwoNeuron.AccumulateOutputs | examples/two_neuron_interaction.py:27-29 | the Mapping loop reads only the registered ids and their outputs |
| TwoNeuron.MappingReadsPreviousOutput | examples/two_neuron_interaction.py:113-130 | at Mapping, N1's current read from the live registry, whose received signals were already rewritten, equals the one from the previous states; N1's step keeps its output, so N2's current read from the registry that aliases N1's new state equals the one from N1's previous output |
| TwoNeuron.OnePassLatency | examples/two_neuron_interaction.py:110-130 | with the example wiring, the pass after a Transformation pass runs Mapping, and N2's input current there is its base current plus 1.5 times the output, 0 or 1, that N1 emitted at that Transformation |
| TwoNeuron.TransformationPassOutputs | examples/two_neuron_interaction.py:58-67 | a pass at Transformation returns both neurons to Mapping with outputs 0 or 1 |
| TwoNeuron.PassFromSteps | examples/two_neuron_interaction.py:121-130 | the two neurons' steps, N1 first and N2 only if N1 succeeded, make up one pass, with the first error reported |
| TwoNeuron.StepNeuron | examples/two_neuron_interaction.py:125-126 | a neuron's step runs its current stage's function and advances its engine when the stage succeeds |
| TwoNeuron.RunStage | examples/two_neuron_interaction.py:69-74 | the stage name selects the neuron's stage function at that position |
| TwoNeuron.DriverPass | examples/two_neuron_interaction.py:113-130 | one loop pass: clear N1's signals, give N2 N1's previous output, step N1 and then N2, and report the pass |
| TwoNeuron.RunTwoNeurons | examples/two_neuron_interaction.py:86-130 | the driver loop computes exactly `Passes`, stopping at the first stage that raises |

## Left out

- The engine's code is not part of this model. It is modelled as a sequencer over the configured
  stage list: a stage index, and a `next_stage` that runs the stage function, commits and advances.
  What the engine does after a stage raises is unknown. The node classes use only stage functions
  that never raise. Everywhere else the model stops at the first raised error and returns it:
  the two-neuron driver (`TwoNeuron.Passes`, `TwoNeuron.RunTwoNeurons`), the single neuron's
  `SimpleNeuron.RunSteps` and `SimpleNeuron.NeuronCycle`, and the muscle's
  `SimpleMuscle.MuscleCycle` and `SimpleMuscle.MuscleCycles`.
- Wall-clock pacing (`time.time`, `time.sleep`) and all `print` output are left out, because they
  do not affect the model's state.
- The neuron's Checking builds a message from `cell_id` when it fires. The model keeps only the
  `KeyError` that this raises when `cell_id` is missing. Python sets `fired_this_step` on the
  record before the message raises, and that write to the shared dict survives the error; the
  model returns the error alone and does not keep the raised flag.
- `examples/simple_visualization/visualizer.js` is browser UI with randomness and is not modelled.
- Floats are modelled as exact reals. IEEE rounding, including the 0.1 · 0.1 rates, and firing
  times in floating point are not captured.
- Only `+`, `*`, `-` and ordering comparisons on numbers are modelled. Other operand types raise
  `TypeError`, including the cases where Python would instead repeat a string or a list by an
  integer.
- The examples pass `stageFunctions=` to `CellMICT`, whose constructor takes no such parameter
  (src/python/cell_cycle.py:15). The example stage functions are modelled as standalone
  transforms, and the neuron table is wired into the two-neuron driver directly.
- The demo block at the end of `simulation_manager.py` calls a method the manager does not have.
  It is not modelled.
- Loading cell data from OpenWorm is still a TODO in the source and is not modelled. In the
  example tree both cell lists are empty.
- The node classes require their children to be distinct, disjoint subtrees. Python would allow a
  child shared between two parents, or listed twice; that aliasing is not modelled.
- In the two-neuron example, a loop of registry states aliases the neurons' own dicts. The model
  reads the previous pass's states from an explicit registry and then stores both new states.
  `TwoNeuron.MappingReadsPreviousOutput` proves that the two readings agree for both neurons.
- `prev_outputs["N2"]` in the two-neuron driver is computed but never used, so it is not modelled.
- Synapse weights are modelled as reals. The presynaptic entries are a sequence in the dict's
  insertion order.
- Simulation.SimulationManager.RunSimulation: the commented-out stopping condition is modelled as
  a parameter `stopAfter`. `stop_simulation()` is called once that many ticks have run, and the first
  tick always runs. A loop that is never stopped, as the source runs it, is not modelled.
- The `__main__` drivers of the single-neuron and muscle examples (1000 steps, printing) are
  represented by `RunSteps` with `RunStepsCycles`, and by the cycle functions `NeuronCycle` and
  `MuscleCycles` and the lemmas about them, not by a loop method.
- Simulation.NewExampleOrganism: states the shape and snapshot of the tree. The ids and types of the
  systems and components are stated only by `Simulation.NewSystem`.
