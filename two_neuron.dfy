/** The two-neuron example: two neuron cells whose Mapping adds weighted
    outputs of presynaptic neurons, read from a registry of neuron states,
    to a base current; a driver loop steps both cells one stage per pass
    and refreshes the registry after both steps. Iteration, Checking and
    Transformation are the simple neuron's. */
module TwoNeuron {
  import opened Values
  import opened SimpleNeuron
  import opened Hierarchy
  import Engine
  import CellCycle

  /** Target neuron id to its presynaptic entries `(source id, weight)`, in
      the dict's insertion order. */
  type Synapses = map<string, seq<(string, real)>>

  /** Neuron id to that neuron's state, as the driver last stored it. */
  type Registry = map<string, State>

  /** The external current of a neuron whose record sets none. */
  const DefaultBaseCurrent: real := 1.0

  /** `synapse_weights.get(neuron_id, {})` */
  function EntriesOf(synapses: Synapses, neuronId: string): seq<(string, real)>
  {
    if neuronId in synapses then synapses[neuronId] else []
  }

  /** One pass of the Mapping loop: a source present in the registry adds
      its `output_signal` (0 when missing) times the weight; an absent one
      adds nothing. Arithmetic on a non-number raises `TypeError`. */
  function AddInput(acc: Value, registry: Registry, source: string, weight: real): (r: Result<Value>)
    ensures source !in registry ==> r == Ok(acc)
    ensures source in registry ==>
              var out := AsNumber(Get(registry[source], "output_signal", Int(0)));
              && (r.Ok? <==> out.Some? && AsNumber(acc).Some?)
              && (r.Ok? ==> r.value == Real(AsNumber(acc).value + out.value * weight))
              && (r.Err? ==> r.error == TypeError)
  {
    if source !in registry then Ok(acc)
    else
      var x :- Number(Get(registry[source], "output_signal", Int(0)));
      var a :- Number(acc);
      Ok(Real(a + x * weight))
  }

  /** The whole Mapping loop, from the accumulator `acc`. Only arithmetic
      on a non-number makes it fail. */
  function Accumulate(acc: Value, entries: seq<(string, real)>, registry: Registry): (r: Result<Value>)
    decreases |entries|
    ensures r.Err? ==> r.error == TypeError
  {
    if entries == [] then Ok(acc)
    else
      var next :- AddInput(acc, registry, entries[0].0, entries[0].1);
      Accumulate(next, entries[1..], registry)
  }

  /** What one entry contributes, when nothing raises. */
  function Contribution(registry: Registry, source: string, weight: real): (c: real)
    ensures source !in registry ==> c == 0.0
    ensures source in registry && "output_signal" !in registry[source] ==> c == 0.0
    ensures source in registry && "output_signal" in registry[source]
            && AsNumber(registry[source]["output_signal"]).Some? ==>
              c == AsNumber(registry[source]["output_signal"]).value * weight
  {
    if source in registry then
      match AsNumber(Get(registry[source], "output_signal", Int(0)))
      case Some(out) => out * weight
      case None => 0.0
    else 0.0
  }

  /** The weighted sum of the presynaptic outputs. */
  function WeightedSum(entries: seq<(string, real)>, registry: Registry): real
  {
    if entries == [] then 0.0
    else Contribution(registry, entries[0].0, entries[0].1) + WeightedSum(entries[1..], registry)
  }

  /** Every source of `entries` present in the registry has a numeric output. */
  predicate NumericOutputs(entries: seq<(string, real)>, registry: Registry)
  {
    forall k | 0 <= k < |entries| && entries[k].0 in registry ::
      AsNumber(Get(registry[entries[k].0], "output_signal", Int(0))).Some?
  }

  /** The loop computes the base plus the weighted sum; when no source is in
      the registry, the input is the base value itself. */
  lemma {:induction false} AccumulateSum(acc: Value, entries: seq<(string, real)>, registry: Registry)
    requires AsNumber(acc).Some? && NumericOutputs(entries, registry)
    ensures Accumulate(acc, entries, registry).Ok?
    ensures AsNumber(Accumulate(acc, entries, registry).value)
         == Some(AsNumber(acc).value + WeightedSum(entries, registry))
    ensures (forall k | 0 <= k < |entries| :: entries[k].0 !in registry) ==> Accumulate(acc, entries, registry) == Ok(acc)
    decreases |entries|
  {
    if entries != [] {
      var next := AddInput(acc, registry, entries[0].0, entries[0].1).value;
      assert AsNumber(next) == Some(AsNumber(acc).value + Contribution(registry, entries[0].0, entries[0].1));
      assert NumericOutputs(entries[1..], registry) by {
        forall k | 0 <= k < |entries[1..]| && entries[1..][k].0 in registry
          ensures AsNumber(Get(registry[entries[1..][k].0], "output_signal", Int(0))).Some?
        {
          assert entries[1..][k] == entries[k + 1];
        }
      }
      AccumulateSum(next, entries[1..], registry);
      if forall k | 0 <= k < |entries| :: entries[k].0 !in registry {
        assert next == acc;
        assert forall k | 0 <= k < |entries[1..]| :: entries[1..][k] == entries[k + 1];
      }
    }
  }

  /** Mapping as a state transform: the accumulated current, from
      `base_current` (default 1.0), becomes `input_current`, and the
      received signals are cleared. */
  function MappingOf(neuronId: string, synapses: Synapses, registry: Registry, s: State): (r: StageResult)
    ensures r.Ok? ==>
              && r.value.Keys == s.Keys + {"input_current", "received_signals"}
              && r.value["received_signals"] == Dict(map[])
              && forall k | k in s && k != "input_current" && k != "received_signals" :: r.value[k] == s[k]
    ensures r.Err? ==> r.error == TypeError
  {
    var current :- Accumulate(Get(s, "base_current", Real(DefaultBaseCurrent)), EntriesOf(synapses, neuronId), registry);
    Ok(s["input_current" := current]["received_signals" := Dict(map[])])
  }

  /** Mapping, as the source writes it: a loop over the neuron's
      presynaptic entries adding into `input_current`. */
  method NeuronMapping(neuronId: string, synapses: Synapses, registry: Registry, s: State) returns (r: StageResult)
    ensures r == MappingOf(neuronId, synapses, registry, s)
  {
    var base := Get(s, "base_current", Real(DefaultBaseCurrent));
    var inputCurrent := base;
    var entries := EntriesOf(synapses, neuronId);
    var i := 0;
    while i < |entries|
      invariant 0 <= i <= |entries|
      invariant Accumulate(inputCurrent, entries[i..], registry) == Accumulate(base, entries, registry)
    {
      var source := entries[i].0;
      var weight := entries[i].1;
      assert entries[i..][0] == entries[i] && entries[i..][1..] == entries[i + 1..];
      ghost var step := AddInput(inputCurrent, registry, source, weight);
      if source in registry {
        var out := AsNumber(Get(registry[source], "output_signal", Int(0)));
        var acc := AsNumber(inputCurrent);
        if out.None? || acc.None? {
          return Err(TypeError);
        }
        assert step.Ok?;
        assert step.value == Real(acc.value + out.value * weight);
        inputCurrent := Real(acc.value + out.value * weight);
      } else {
        assert step.Ok?;
        assert step.value == inputCurrent;
      }
      assert step == Ok(inputCurrent);
      i := i + 1;
    }
    r := Ok(s["input_current" := inputCurrent]["received_signals" := Dict(map[])]);
  }

  /** What Mapping promises: on success the received signals are empty, the
      input current is the base current plus the weighted sum of the
      presynaptic outputs, and nothing else changes; a neuron with no
      synapse entry gets exactly its base current; a failure is a
      `TypeError` from arithmetic on a non-number. */
  lemma MappingProperties(neuronId: string, synapses: Synapses, registry: Registry, s: State)
    ensures var r := MappingOf(neuronId, synapses, registry, s);
      && (r.Ok? ==>
            && r.value.Keys == s.Keys + {"input_current", "received_signals"}
            && r.value["received_signals"] == Dict(map[])
            && forall k | k in s && k != "input_current" && k != "received_signals" :: r.value[k] == s[k])
      && (neuronId !in synapses ==> r.Ok? && r.value["input_current"] == Get(s, "base_current", Real(DefaultBaseCurrent)))
      && (AsNumber(Get(s, "base_current", Real(DefaultBaseCurrent))).Some?
          && NumericOutputs(EntriesOf(synapses, neuronId), registry) ==>
            r.Ok? && AsNumber(r.value["input_current"])
                     == Some(AsNumber(Get(s, "base_current", Real(DefaultBaseCurrent))).value
                             + WeightedSum(EntriesOf(synapses, neuronId), registry)))
      && (r.Err? ==> r.error == TypeError)
  {
    var base := Get(s, "base_current", Real(DefaultBaseCurrent));
    var entries := EntriesOf(synapses, neuronId);
    if AsNumber(base).Some? && NumericOutputs(entries, registry) {
      AccumulateSum(base, entries, registry);
    }
  }

  /** The example wiring: N1 sends to N2 with weight 1.5. */
  function ExampleSynapses(): Synapses
  {
    map["N2" := [("N1", 1.5)]]
  }

  /** With the example wiring N1 gets its base current alone, and N2 its
      base current plus 1.5 times N1's last output. */
  lemma ExampleMapping(registry: Registry, s1: State, s2: State)
    requires "N1" in registry && AsNumber(Get(registry["N1"], "output_signal", Int(0))).Some?
    requires AsNumber(Get(s2, "base_current", Real(DefaultBaseCurrent))).Some?
    ensures MappingOf("N1", ExampleSynapses(), registry, s1).Ok?
    ensures MappingOf("N1", ExampleSynapses(), registry, s1).value["input_current"]
         == Get(s1, "base_current", Real(DefaultBaseCurrent))
    ensures MappingOf("N2", ExampleSynapses(), registry, s2).Ok?
    ensures MappingOf("N2", ExampleSynapses(), registry, s2).value["input_current"]
         == Real(AsNumber(Get(s2, "base_current", Real(DefaultBaseCurrent))).value
                 + AsNumber(Get(registry["N1"], "output_signal", Int(0))).value * 1.5)
  {
    MappingProperties("N1", ExampleSynapses(), registry, s1);
  }

  /** The stage-function table of neuron `neuronId`, by position in the
      configured stage list; Mapping is the specification of `NeuronMapping`. */
  function NeuronStageAt(neuronId: string, synapses: Synapses, registry: Registry, i: Pos, s: State): (r: StageResult)
    ensures i == 0 && r.Err? ==> r.error == TypeError
    ensures i == 3 ==> r.Ok? && "output_signal" in r.value
                       && (r.value["output_signal"] == Int(0) || r.value["output_signal"] == Int(1))
  {
    if i == 0 then MappingOf(neuronId, synapses, registry, s)
    else if i == 1 then NeuronIteration(s)
    else if i == 2 then NeuronChecking(s)
    else Ok(NeuronTransformation(s))
  }

  /** Past Mapping, the two-neuron table holds the simple neuron's stage
      functions under the same names. */
  lemma StageTablesAgree(neuronId: string, synapses: Synapses, registry: Registry, i: Pos, s: State)
    requires i != 0
    ensures NeuronStageAt(neuronId, synapses, registry, i, s) == NeuronStage(StageAt(i), s)
  {
    StageNames(i);
  }

  /** The driver's view after some passes: each neuron's stage position and
      state. The registry of neuron states always maps each id to that
      neuron's state, so it is not kept apart. */
  datatype Lockstep = Lockstep(index1: Pos, index2: Pos, n1: State, n2: State)

  /** The registry the Mapping stages read. */
  function RegistryOf(w: Lockstep): (r: Registry)
    ensures r.Keys == {"N1", "N2"} && r["N1"] == w.n1 && r["N2"] == w.n2
  {
    map["N1" := w.n1, "N2" := w.n2]
  }

  /** Both cells as constructed, before the loop: at the first stage, each
      holding its initial record with its id and the type `neuron`. */
  function Start(init1: State, init2: State): (r: Lockstep)
    ensures r.index1 == 0 && r.index2 == 0
    ensures r.n1.Keys == init1.Keys + {"cell_id", "cell_type"} && r.n2.Keys == init2.Keys + {"cell_id", "cell_type"}
    ensures r.n1["cell_id"] == Str("N1") && r.n2["cell_id"] == Str("N2")
    ensures r.n1["cell_type"] == Str("neuron") && r.n2["cell_type"] == Str("neuron")
    ensures forall k | k in init1 && k != "cell_id" && k != "cell_type" :: r.n1[k] == init1[k]
    ensures forall k | k in init2 && k != "cell_id" && k != "cell_type" :: r.n2[k] == init2[k]
  {
    Lockstep(0, 0, CellCycle.InitialCellState(init1, "N1", "neuron"), CellCycle.InitialCellState(init2, "N2", "neuron"))
  }

  /** One pass of the driver loop: clear N1's received signals and give N2
      N1's previous output, step N1 and then N2 by one stage each against
      the registry of the previous pass, and only then store both states. */
  function Pass(synapses: Synapses, w: Lockstep): (r: Result<Lockstep>)
    ensures r.Ok? ==> Advances(w, r.value)
  {
    var s1 := w.n1["received_signals" := Dict(map[])];
    var s2 := w.n2["received_signals" := Dict(map["N1" := Get(w.n1, "output_signal", Int(0))])];
    var t1 :- NeuronStageAt("N1", synapses, RegistryOf(w), w.index1, s1);
    var t2 :- NeuronStageAt("N2", synapses, RegistryOf(w), w.index2, s2);
    Ok(Lockstep(Succ(w.index1), Succ(w.index2), t1, t2))
  }

  /** `k` applications of `pass`, stopping at the first error. */
  function Iterate(pass: Lockstep -> Result<Lockstep>, w: Lockstep, k: nat): Result<Lockstep>
  {
    if k == 0 then Ok(w)
    else
      var before :- Iterate(pass, w, k - 1);
      pass(before)
  }

  /** `k` passes of the driver loop. */
  function Passes(synapses: Synapses, w: Lockstep, k: nat): Result<Lockstep>
  {
    Iterate(x => Pass(synapses, x), w, k)
  }

  /** What a pass does to the stage positions. */
  predicate Advances(w: Lockstep, next: Lockstep)
  {
    next.index1 == Succ(w.index1) && next.index2 == Succ(w.index2)
  }

  /** Passes that each move both cells on one stage leave each cell at the
      stage `k` positions on from where it started. */
  lemma {:induction false} IterateLockstep(pass: Lockstep -> Result<Lockstep>, w: Lockstep, k: nat)
    requires forall x :: pass(x).Ok? ==> Advances(x, pass(x).value)
    ensures Iterate(pass, w, k).Ok? ==>
              var last := Iterate(pass, w, k).value;
              last.index1 == After(w.index1, k) && last.index2 == After(w.index2, k)
  {
    if k > 0 {
      IterateLockstep(pass, w, k - 1);
    }
  }

  /** The driver's cells advance one stage per pass: started together at
      Mapping, after `k` passes both are at the stage `k` positions on. */
  lemma PassesLockstep(synapses: Synapses, init1: State, init2: State, k: nat)
    ensures Passes(synapses, Start(init1, init2), k).Ok? ==>
              var last := Passes(synapses, Start(init1, init2), k).value;
              last.index1 == last.index2 == After(0, k)
  {
    assert forall x :: Pass(synapses, x).Ok? ==> Advances(x, Pass(synapses, x).value);
    IterateLockstep(x => Pass(synapses, x), Start(init1, init2), k);
  }

  /** One more pass after `k` passes is the `k + 1`-th pass. */
  lemma IterateNext(pass: Lockstep -> Result<Lockstep>, w: Lockstep, k: nat, before: Lockstep, after: Result<Lockstep>)
    requires Iterate(pass, w, k) == Ok(before) && pass(before) == after
    ensures Iterate(pass, w, k + 1) == after
  {
  }

  /** Once a pass has failed, so have all later ones. */
  lemma {:induction false} IterateStaysFailed(pass: Lockstep -> Result<Lockstep>, w: Lockstep, k: nat, m: nat, e: Error)
    requires k <= m && Iterate(pass, w, k) == Err(e)
    ensures Iterate(pass, w, m) == Err(e)
    decreases m
  {
    if k < m {
      IterateStaysFailed(pass, w, k, m - 1, e);
    }
  }

  /** The loop reads presynaptic outputs only: registries that agree on
      their ids and on each state's `output_signal` give the same result. */
  lemma {:induction false} AccumulateOutputs(acc: Value, entries: seq<(string, real)>, r1: Registry, r2: Registry)
    requires r1.Keys == r2.Keys
    requires forall id | id in r1 :: Get(r1[id], "output_signal", Int(0)) == Get(r2[id], "output_signal", Int(0))
    ensures Accumulate(acc, entries, r1) == Accumulate(acc, entries, r2)
    decreases |entries|
  {
    if entries != [] {
      var source := entries[0].0;
      var step := AddInput(acc, r1, source, entries[0].1);
      var other := AddInput(acc, r2, source, entries[0].1);
      if source in r1 {
        assert Get(r1[source], "output_signal", Int(0)) == Get(r2[source], "output_signal", Int(0));
        assert step.Ok? == other.Ok?;
        if step.Ok? {
          assert step.value == other.value;
        } else {
          assert step.error == other.error;
        }
      }
      assert step == other;
      if step.Ok? {
        AccumulateOutputs(step.value, entries[1..], r1, r2);
      }
    }
  }

  /** In the source the registry holds the cells' own state objects, so
      N1's Mapping sees both states after their received signals were set,
      and N2's Mapping sees N1's state after N1's step of the same pass.
      The model reads the states of the previous pass instead; at Mapping,
      the only stage that reads the registry, the readings agree: setting
      the received signals and N1's Mapping leave every `output_signal`
      alone. */
  lemma MappingReadsPreviousOutput(synapses: Synapses, w: Lockstep)
    requires w.index1 == 0 && w.index2 == 0
    requires Pass(synapses, w).Ok?
    ensures var next := Pass(synapses, w).value;
      var s2 := w.n2["received_signals" := Dict(map["N1" := Get(w.n1, "output_signal", Int(0))])];
      var s1 := w.n1["received_signals" := Dict(map[])];
      && MappingOf("N1", synapses, map["N1" := s1, "N2" := s2], s1) == Ok(next.n1)
      && Get(next.n1, "output_signal", Int(0)) == Get(w.n1, "output_signal", Int(0))
      && MappingOf("N2", synapses, map["N1" := next.n1, "N2" := s2], s2) == Ok(next.n2)
  {
    var s1 := w.n1["received_signals" := Dict(map[])];
    var s2 := w.n2["received_signals" := Dict(map["N1" := Get(w.n1, "output_signal", Int(0))])];
    var next := Pass(synapses, w).value;
    MappingProperties("N1", synapses, RegistryOf(w), s1);
    assert Get(next.n1, "output_signal", Int(0)) == Get(w.n1, "output_signal", Int(0));
    assert Get(s1, "output_signal", Int(0)) == Get(w.n1, "output_signal", Int(0));
    assert Get(s2, "output_signal", Int(0)) == Get(w.n2, "output_signal", Int(0));
    AccumulateOutputs(Get(s1, "base_current", Real(DefaultBaseCurrent)), EntriesOf(synapses, "N1"),
                      RegistryOf(w), map["N1" := s1, "N2" := s2]);
    AccumulateOutputs(Get(s2, "base_current", Real(DefaultBaseCurrent)), EntriesOf(synapses, "N2"),
                      RegistryOf(w), map["N1" := next.n1, "N2" := s2]);
  }

  /** A pass at Transformation leaves each neuron's output at 0 or 1: the
      value the next pass's Mapping reads. */
  lemma TransformationPassOutputs(synapses: Synapses, w: Lockstep)
    requires w.index1 == 3 && w.index2 == 3
    requires Pass(synapses, w).Ok?
    ensures var next := Pass(synapses, w).value;
      && next.index1 == 0 && next.index2 == 0
      && (next.n1["output_signal"] == Int(0) || next.n1["output_signal"] == Int(1))
      && (next.n2["output_signal"] == Int(0) || next.n2["output_signal"] == Int(1))
  {
  }

  /** One pass of latency in the example wiring: the pass after a
      Transformation pass runs Mapping, and N2's input current there is its
      base current plus 1.5 times the output, 0 or 1, that N1 emitted at
      that Transformation. */
  lemma OnePassLatency(init1: State, init2: State, k: nat)
    requires Passes(ExampleSynapses(), Start(init1, init2), 4 * k + 5).Ok?
    ensures Passes(ExampleSynapses(), Start(init1, init2), 4 * k + 4).Ok?
    ensures var prev := Passes(ExampleSynapses(), Start(init1, init2), 4 * k + 4).value;
      var next := Passes(ExampleSynapses(), Start(init1, init2), 4 * k + 5).value;
      && prev.index1 == 0 && prev.index2 == 0
      && "output_signal" in prev.n1
      && (prev.n1["output_signal"] == Int(0) || prev.n1["output_signal"] == Int(1))
      && AsNumber(Get(prev.n2, "base_current", Real(DefaultBaseCurrent))).Some?
      && "input_current" in next.n2
      && next.n2["input_current"]
         == Real(AsNumber(Get(prev.n2, "base_current", Real(DefaultBaseCurrent))).value
                 + AsNumber(prev.n1["output_signal"]).value * 1.5)
  {
    PassesLatency(Start(init1, init2), k);
  }

  /** `OnePassLatency` from any pair of neurons that start together at Mapping. */
  lemma PassesLatency(w: Lockstep, k: nat)
    requires w.index1 == 0 && w.index2 == 0
    requires Passes(ExampleSynapses(), w, 4 * k + 5).Ok?
    ensures Passes(ExampleSynapses(), w, 4 * k + 4).Ok?
    ensures LatencyHolds(Passes(ExampleSynapses(), w, 4 * k + 4).value, Passes(ExampleSynapses(), w, 4 * k + 5).value)
  {
    var synapses := ExampleSynapses();
    var p3 := Passes(synapses, w, 4 * k + 3);
    var p4 := Passes(synapses, w, 4 * k + 4);
    var p5 := Passes(synapses, w, 4 * k + 5);
    PassesNext(synapses, w, 4 * k + 4);
    assert p4.Ok?;
    PassesNext(synapses, w, 4 * k + 3);
    assert p3.Ok?;
    PassesAdvance(synapses, w, 4 * k + 3);
    AfterTransformation(k);
    LatencyStep(p3.value, p4.value, p5.value);
  }

  /** `prev` stands at Mapping after a Transformation, and `next`, one pass
      later, has N2's input current from N1's output in `prev`. */
  predicate LatencyHolds(prev: Lockstep, next: Lockstep)
  {
    && prev.index1 == 0 && prev.index2 == 0
    && "output_signal" in prev.n1
    && (prev.n1["output_signal"] == Int(0) || prev.n1["output_signal"] == Int(1))
    && AsNumber(Get(prev.n2, "base_current", Real(DefaultBaseCurrent))).Some?
    && "input_current" in next.n2
    && next.n2["input_current"]
       == Real(AsNumber(Get(prev.n2, "base_current", Real(DefaultBaseCurrent))).value
               + AsNumber(prev.n1["output_signal"]).value * 1.5)
  }

  /** The two passes of `OnePassLatency`: Transformation, then Mapping. */
  lemma LatencyStep(before: Lockstep, prev: Lockstep, next: Lockstep)
    requires before.index1 == 3 && before.index2 == 3
    requires Pass(ExampleSynapses(), before) == Ok(prev) && Pass(ExampleSynapses(), prev) == Ok(next)
    ensures LatencyHolds(prev, next)
  {
    TransformationPassOutputs(ExampleSynapses(), before);
    LatencyMapping(prev);
  }

  /** After `k` successful passes each neuron is `k` stages on from where it started. */
  lemma PassesAdvance(synapses: Synapses, w: Lockstep, k: nat)
    ensures Passes(synapses, w, k).Ok? ==>
              Passes(synapses, w, k).value.index1 == After(w.index1, k)
              && Passes(synapses, w, k).value.index2 == After(w.index2, k)
  {
    assert forall x :: Pass(synapses, x).Ok? ==> Advances(x, Pass(synapses, x).value);
    IterateLockstep(x => Pass(synapses, x), w, k);
  }

  /** `4 * k + 3` stages from Mapping is Transformation. */
  lemma AfterTransformation(k: nat)
    ensures After(0, 4 * k + 3) == 3
  {
    AfterIsModular(0, 4 * k + 3);
  }

  /** Pass `k + 1` is one pass after the first `k`, unless one of those
      failed, whose error it then returns. */
  lemma PassesNext(synapses: Synapses, w: Lockstep, k: nat)
    ensures var before := Passes(synapses, w, k);
      Passes(synapses, w, k + 1) == if before.Err? then before else Pass(synapses, before.value)
  {
  }

  /** The Mapping pass of `OnePassLatency`, from any state at Mapping whose
      N1 output is a number. */
  lemma LatencyMapping(prev: Lockstep)
    requires prev.index1 == 0 && prev.index2 == 0
    requires "output_signal" in prev.n1 && AsNumber(prev.n1["output_signal"]).Some?
    requires Pass(ExampleSynapses(), prev).Ok?
    ensures AsNumber(Get(prev.n2, "base_current", Real(DefaultBaseCurrent))).Some?
    ensures "input_current" in Pass(ExampleSynapses(), prev).value.n2
    ensures Pass(ExampleSynapses(), prev).value.n2["input_current"]
         == Real(AsNumber(Get(prev.n2, "base_current", Real(DefaultBaseCurrent))).value
                 + AsNumber(prev.n1["output_signal"]).value * 1.5)
  {
    var registry := RegistryOf(prev);
    var s1 := prev.n1["received_signals" := Dict(map[])];
    var s2 := prev.n2["received_signals" := Dict(map["N1" := Get(prev.n1, "output_signal", Int(0))])];
    var base := Get(s2, "base_current", Real(DefaultBaseCurrent));
    assert base == Get(prev.n2, "base_current", Real(DefaultBaseCurrent));
    var t2 := MappingOf("N2", ExampleSynapses(), registry, s2);
    assert t2.Ok?;
    assert EntriesOf(ExampleSynapses(), "N2") == [("N1", 1.5)];
    assert AddInput(base, registry, "N1", 1.5).Ok?;
    ExampleMapping(registry, s1, s2);
  }

  /** The result of the driver's two steps of a pass: the pass. */
  lemma PassFromSteps(synapses: Synapses, w: Lockstep, s1: State, s2: State, t1: StageResult, t2: StageResult)
    requires s1 == w.n1["received_signals" := Dict(map[])]
    requires s2 == w.n2["received_signals" := Dict(map["N1" := Get(w.n1, "output_signal", Int(0))])]
    requires t1 == NeuronStageAt("N1", synapses, RegistryOf(w), w.index1, s1)
    requires t1.Ok? ==> t2 == NeuronStageAt("N2", synapses, RegistryOf(w), w.index2, s2)
    ensures t1.Err? ==> Pass(synapses, w) == Err(t1.error)
    ensures t1.Ok? && t2.Err? ==> Pass(synapses, w) == Err(t2.error)
    ensures t1.Ok? && t2.Ok? ==> Pass(synapses, w) == Ok(Lockstep(Succ(w.index1), Succ(w.index2), t1.value, t2.value))
  {
  }

  /** One `step()` of a neuron: run its current stage on `s` and move its
      engine on. What the engine does when a stage raises is not known, so
      the error is returned and the engine is left alone. */
  method StepNeuron(neuronId: string, synapses: Synapses, registry: Registry, engine: Engine.Sequencer, s: State)
    returns (r: StageResult)
    requires engine.Valid() && engine.stages == Engine.Stages
    modifies engine
    ensures engine.Valid() && engine.stages == Engine.Stages
    ensures r == NeuronStageAt(neuronId, synapses, registry, old(engine.index), s)
    ensures r.Ok? ==> engine.index == Succ(old(engine.index)) && engine.steps == old(engine.steps) + 1
  {
    var stage := engine.CurrentStage();
    r := RunStage(neuronId, synapses, registry, stage, engine.index, s);
    if r.Ok? {
      engine.Advance();
    }
  }

  /** `stageFunctions[stage](state)`: the stage function registered under
      the stage's name. */
  method RunStage(neuronId: string, synapses: Synapses, registry: Registry, stage: string, ghost i: Pos, s: State)
    returns (r: StageResult)
    requires stage == StageAt(i)
    ensures r == NeuronStageAt(neuronId, synapses, registry, i, s)
  {
    StageNames(i);
    if stage == "Mapping" {
      r := NeuronMapping(neuronId, synapses, registry, s);
    } else if stage == "Iteration" {
      r := NeuronIteration(s);
    } else if stage == "Checking" {
      r := NeuronChecking(s);
    } else {
      r := Ok(NeuronTransformation(s));
    }
  }

  /** One pass of the example's driver loop: N1 steps, then N2, each on its
      own engine; a stage that raises ends the pass with its error. */
  method DriverPass(synapses: Synapses, e1: Engine.Sequencer, e2: Engine.Sequencer, s1: State, s2: State)
    returns (r: Result<Lockstep>)
    requires e1 != e2
    requires e1.Valid() && e1.stages == Engine.Stages && e2.Valid() && e2.stages == Engine.Stages
    modifies e1, e2
    ensures e1.Valid() && e1.stages == Engine.Stages && e2.Valid() && e2.stages == Engine.Stages
    ensures r == Pass(synapses, Lockstep(old(e1.index), old(e2.index), s1, s2))
    ensures r.Ok? ==> r.value.index1 == e1.index && r.value.index2 == e2.index
  {
    ghost var before := Lockstep(e1.index, e2.index, s1, s2);
    var registry := map["N1" := s1, "N2" := s2];
    var prev1 := Get(registry["N1"], "output_signal", Int(0));
    var in1 := s1["received_signals" := Dict(map[])];
    var in2 := s2["received_signals" := Dict(map["N1" := prev1])];
    var t1 := StepNeuron("N1", synapses, registry, e1, in1);
    var t2: StageResult := Err(TypeError);
    if t1.Ok? {
      t2 := StepNeuron("N2", synapses, registry, e2, in2);
    }
    PassFromSteps(synapses, before, in1, in2, t1, t2);
    if t1.Err? {
      return Err(t1.error);
    }
    if t2.Err? {
      return Err(t2.error);
    }
    r := Ok(Lockstep(e1.index, e2.index, t1.value, t2.value));
  }

  /** The example's driver loop, `rounds` passes, with the registry an
      explicit map; it stops at the first stage that raises. */
  method RunTwoNeurons(synapses: Synapses, init1: State, init2: State, rounds: nat) returns (r: Result<Lockstep>)
    ensures r == Passes(synapses, Start(init1, init2), rounds)
  {
    ghost var pass := x => Pass(synapses, x);
    ghost var start := Start(init1, init2);
    var e1 := new Engine.Sequencer(Engine.Stages);
    var e2 := new Engine.Sequencer(Engine.Stages);
    var s1 := CellCycle.InitialCellState(init1, "N1", "neuron");
    var s2 := CellCycle.InitialCellState(init2, "N2", "neuron");
    for i := 0 to rounds
      invariant e1.Valid() && e1.stages == Engine.Stages
      invariant e2.Valid() && e2.stages == Engine.Stages
      invariant Iterate(pass, start, i) == Ok(Lockstep(e1.index, e2.index, s1, s2))
    {
      ghost var before := Lockstep(e1.index, e2.index, s1, s2);
      var t := DriverPass(synapses, e1, e2, s1, s2);
      IterateNext(pass, start, i, before, t);
      if t.Err? {
        IterateStaysFailed(pass, start, i + 1, rounds, t.error);
        return t;
      }
      s1 := t.value.n1;
      s2 := t.value.n2;
    }
    r := Ok(Lockstep(e1.index, e2.index, s1, s2));
  }
}
