/** The stage functions of the leaky integrate-and-fire neuron example: a
    cell whose four stages read an input current, integrate the membrane
    potential, test the firing threshold, and emit a binary output. Each
    stage updates the state record in place and returns it; here each is a
    function from the record to the record it leaves, or to the exception
    it raises. Floats are modelled as reals. */
module SimpleNeuron {
  import opened Values
  import Hierarchy

  /** The neuron parameters (mV, ms, MOhm). */
  const VRest: real := -70.0
  const VThreshold: real := -55.0
  const VReset: real := -75.0
  const TauM: real := 10.0
  const RM: real := 10.0
  const Dt: real := 0.1

  /** The constant input current Mapping supplies when the record has none. */
  const DefaultInputCurrent: real := 1.6

  /** Mapping: keep an existing `input_current`, otherwise supply the default. */
  function NeuronMapping(s: State): (r: State)
    ensures r.Keys == s.Keys + {"input_current"}
    ensures r["input_current"] == if "input_current" in s then s["input_current"] else Real(DefaultInputCurrent)
    ensures forall k | k in s :: r[k] == s[k]
  {
    s["input_current" := Get(s, "input_current", Real(DefaultInputCurrent))]
  }

  /** Mapping changes nothing the second time. */
  lemma MappingIdempotent(s: State)
    ensures NeuronMapping(NeuronMapping(s)) == NeuronMapping(s)
  {
  }

  /** One Euler step of the membrane equation `dv = (-(v - V_REST) + R*I) / tau * dt`. */
  function LifUpdate(v: real, i: real, rm: real, tau: real, dt: real): (w: real)
    requires tau != 0.0
    ensures (w - v) * tau == (Equilibrium(rm, i) - v) * dt
  {
    v + (-(v - VRest) + rm * i) / tau * dt
  }

  /** The potential the membrane settles at under a constant current. */
  function Equilibrium(rm: real, i: real): real
  {
    VRest + rm * i
  }

  /** One step shrinks the distance to the equilibrium by the factor `1 - dt/tau`. */
  lemma LifRelaxation(v: real, i: real, rm: real, tau: real, dt: real)
    requires tau != 0.0
    ensures LifUpdate(v, i, rm, tau, dt) - Equilibrium(rm, i) == (v - Equilibrium(rm, i)) * (1.0 - dt / tau)
  {
    var e := Equilibrium(rm, i);
    calc {
      LifUpdate(v, i, rm, tau, dt) - e;
      v + (e - v) / tau * dt - e;
      (v - e) - (v - e) / tau * dt;
      (v - e) * (1.0 - dt / tau);
    }
  }

  /** With a step no longer than the time constant, the new potential lies
      between the old one and the equilibrium: it moves towards it and does
      not overshoot. At the equilibrium it stays put. */
  lemma LifApproachesEquilibrium(v: real, i: real, rm: real, tau: real, dt: real)
    requires 0.0 < dt <= tau
    ensures var w := LifUpdate(v, i, rm, tau, dt);
      var e := Equilibrium(rm, i);
      && (v <= e ==> v <= w <= e)
      && (e <= v ==> e <= w <= v)
      && (v == e ==> w == v)
  {
    LifRelaxation(v, i, rm, tau, dt);
    var f := 1.0 - dt / tau;
    assert 0.0 <= f < 1.0 by {
      assert dt / tau <= 1.0;
      assert dt / tau > 0.0;
    }
    var e := Equilibrium(rm, i);
    var w := LifUpdate(v, i, rm, tau, dt);
    assert w - e == (v - e) * f;
    if v <= e {
      assert (v - e) * f >= v - e;
      assert (v - e) * f <= 0.0;
    } else {
      assert (v - e) * f <= v - e;
      assert (v - e) * f >= 0.0;
    }
  }

  /** The example's constant input drives the equilibrium above the
      threshold, which is why the example neuron fires periodically. */
  lemma DefaultInputReachesThreshold()
    ensures Equilibrium(RM, DefaultInputCurrent) > VThreshold
  {
  }

  /** Every key Iteration reads is there: the potential, the input current,
      and a `params` dict holding the three parameters. */
  predicate LifPresent(s: State)
  {
    && "membrane_potential" in s && "input_current" in s && "params" in s
    && s["params"].Dict?
    && "R_M" in s["params"].entries && "TAU_M" in s["params"].entries && "DT" in s["params"].entries
  }

  /** The record Iteration can integrate: the potential, the input current
      and the three parameters are present and numeric, and `TAU_M` is not 0. */
  predicate LifReadable(s: State)
  {
    && LifPresent(s)
    && AsNumber(s["membrane_potential"]).Some? && AsNumber(s["input_current"]).Some?
    && AsNumber(s["params"].entries["R_M"]).Some?
    && AsNumber(s["params"].entries["TAU_M"]).Some? && AsNumber(s["params"].entries["DT"]).Some?
    && AsNumber(s["params"].entries["TAU_M"]).value != 0.0
  }

  /** The potential Iteration computes from a readable record. */
  function LifOf(s: State): real
    requires LifReadable(s)
  {
    var p := s["params"].entries;
    LifUpdate(AsNumber(s["membrane_potential"]).value, AsNumber(s["input_current"]).value,
              AsNumber(p["R_M"]).value, AsNumber(p["TAU_M"]).value, AsNumber(p["DT"]).value)
  }

  /** Iteration: integrate the membrane potential and clear the firing flag.
      The keys are read in the order the source reads them; a non-number
      in the numerator raises `TypeError`, a zero `TAU_M` raises
      `ZeroDivisionError` before `DT` is looked at. */
  function NeuronIteration(s: State): (r: StageResult)
    ensures r.Ok? <==> LifReadable(s)
    ensures r.Ok? ==>
              && r.value.Keys == s.Keys + {"fired_this_step"}
              && r.value["membrane_potential"] == Real(LifOf(s))
              && r.value["fired_this_step"] == Bool(false)
              && forall k | k in s && k != "membrane_potential" && k != "fired_this_step" :: r.value[k] == s[k]
    ensures "membrane_potential" !in s ==> r == Err(KeyError("membrane_potential"))
    ensures "membrane_potential" in s && "input_current" !in s ==> r == Err(KeyError("input_current"))
    ensures "membrane_potential" in s && "input_current" in s && "params" !in s ==> r == Err(KeyError("params"))
    ensures "membrane_potential" in s && "input_current" in s && "params" in s && !s["params"].Dict? ==>
              r == Err(TypeError)
    ensures "membrane_potential" in s && "input_current" in s && "params" in s && s["params"].Dict? ==>
              var p := s["params"].entries;
              && ("R_M" !in p ==> r == Err(KeyError("R_M")))
              && ("R_M" in p && "TAU_M" !in p ==> r == Err(KeyError("TAU_M")))
              && ("R_M" in p && "TAU_M" in p && "DT" !in p ==> r == Err(KeyError("DT")))
    ensures LifPresent(s) ==>
              var p := s["params"].entries;
              var numerator := AsNumber(s["membrane_potential"]).Some? && AsNumber(s["input_current"]).Some?
                               && AsNumber(p["R_M"]).Some?;
              && (!numerator || AsNumber(p["TAU_M"]).None? ==> r == Err(TypeError))
              && (numerator && AsNumber(p["TAU_M"]) == Some(0.0) ==> r == Err(ZeroDivisionError))
              && (numerator && AsNumber(p["TAU_M"]).Some? && AsNumber(p["TAU_M"]).value != 0.0 && AsNumber(p["DT"]).None?
                  ==> r == Err(TypeError))
    ensures r.Err? && r.error == ZeroDivisionError ==>
              "params" in s && s["params"].Dict? && "TAU_M" in s["params"].entries
              && AsNumber(s["params"].entries["TAU_M"]) == Some(0.0)
  {
    var v :- Lookup(s, "membrane_potential");
    var i :- Lookup(s, "input_current");
    var params :- Lookup(s, "params");
    var rm :- Subscript(params, "R_M");
    var tau :- Subscript(params, "TAU_M");
    var dt :- Subscript(params, "DT");
    var vx :- Number(v);
    var rx :- Number(rm);
    var ix :- Number(i);
    var taux :- Number(tau);
    if taux == 0.0 then Err(ZeroDivisionError)
    else
      var dtx :- Number(dt);
      Ok(s["membrane_potential" := Real(LifUpdate(vx, ix, rx, taux, dtx))]["fired_this_step" := Bool(false)])
  }

  /** Checking: set the firing flag when the potential has reached the
      threshold, otherwise change nothing. Firing also formats the cell's
      id into a message, which raises `KeyError` when `cell_id` is missing. */
  function NeuronChecking(s: State): (r: StageResult)
    ensures "membrane_potential" !in s ==> r == Err(KeyError("membrane_potential"))
    ensures "membrane_potential" in s && AsNumber(s["membrane_potential"]).None? ==> r == Err(TypeError)
    ensures "membrane_potential" in s && AsNumber(s["membrane_potential"]).Some? ==>
              var v := AsNumber(s["membrane_potential"]).value;
              && (v < VThreshold ==> r == Ok(s))
              && (v >= VThreshold && "cell_id" in s ==> r == Ok(s["fired_this_step" := Bool(true)]))
              && (v >= VThreshold && "cell_id" !in s ==> r == Err(KeyError("cell_id")))
  {
    var v :- Lookup(s, "membrane_potential");
    var vx :- Number(v);
    if vx >= VThreshold then
      var id :- Lookup(s, "cell_id");
      Ok(s["fired_this_step" := Bool(true)])
    else Ok(s)
  }

  /** Transformation: a neuron that fired is reset and emits 1, with its
      flag cleared; any other emits 0 and keeps its potential. */
  function NeuronTransformation(s: State): (r: State)
    ensures r.Keys == s.Keys + {"output_signal"} + (if Fired(s) then {"membrane_potential", "fired_this_step"} else {})
    ensures r["output_signal"] == Int(1) || r["output_signal"] == Int(0)
    ensures r["output_signal"] == Int(1) <==> Fired(s)
    ensures Fired(s) ==> r["membrane_potential"] == Real(VReset)
    ensures "fired_this_step" in r ==> !Truthy(r["fired_this_step"])
    ensures forall k | k in s && k != "output_signal" && (Fired(s) ==> k != "membrane_potential" && k != "fired_this_step") ::
              r[k] == s[k]
  {
    if Fired(s) then
      s["membrane_potential" := Real(VReset)]["output_signal" := Int(1)]["fired_this_step" := Bool(false)]
    else
      s["output_signal" := Int(0)]
  }

  /** `state.get('fired_this_step', False)` is truthy. */
  predicate Fired(s: State)
  {
    Truthy(Get(s, "fired_this_step", Bool(false)))
  }

  /** The neuron's stage-function table, by stage name; a name with no
      entry is the identity. Only Iteration and Checking can raise, no stage
      removes a key, and Transformation leaves a binary output. */
  function NeuronStage(stage: string, s: State): (r: StageResult)
    ensures stage != "Iteration" && stage != "Checking" ==> r.Ok?
    ensures r.Ok? ==> s.Keys <= r.value.Keys
    ensures stage == "Transformation" ==>
              "output_signal" in r.value && (r.value["output_signal"] == Int(0) || r.value["output_signal"] == Int(1))
  {
    match stage
    case "Mapping" => Ok(NeuronMapping(s))
    case "Iteration" => NeuronIteration(s)
    case "Checking" => NeuronChecking(s)
    case "Transformation" => Ok(NeuronTransformation(s))
    case _ => Ok(s)
  }

  /** One `step()` of the neuron at stage position `i`: the function the
      table holds under that stage's name. */
  function TableStep(i: Hierarchy.Pos, s: State): StageResult
  {
    NeuronStage(Hierarchy.StageAt(i), s)
  }

  /** `k` calls of `step()` from stage position `i`, each running `step` at
      the current position and moving on one, stopping at the first error. */
  function RunSteps(step: (Hierarchy.Pos, State) -> StageResult, s: State, i: Hierarchy.Pos, k: nat): StageResult
    decreases k
  {
    if k == 0 then Ok(s)
    else
      var t :- step(i, s);
      RunSteps(step, t, Hierarchy.Succ(i), k - 1)
  }

  /** Looked up by stage name in the engine's order, the table runs the
      cycle: four steps from Mapping are `NeuronCycle`. */
  lemma CycleFromTable(s: State)
    ensures RunSteps(TableStep, s, 0, 4) == NeuronCycle(s)
  {
    var mapped := NeuronMapping(s);
    TableStepAt(s);
    TableStepAt(mapped);
    assert RunSteps(TableStep, s, 0, 4) == RunSteps(TableStep, mapped, 1, 3);
    var integrated := NeuronIteration(mapped);
    if integrated.Ok? {
      TableStepAt(integrated.value);
      var checked := NeuronChecking(integrated.value);
      if checked.Ok? {
        TableStepAt(checked.value);
      }
    }
  }

  /** The table at each stage position holds that stage's function. */
  lemma TableStepAt(s: State)
    ensures TableStep(0, s) == Ok(NeuronMapping(s))
    ensures TableStep(1, s) == NeuronIteration(s)
    ensures TableStep(2, s) == NeuronChecking(s)
    ensures TableStep(3, s) == Ok(NeuronTransformation(s))
  {
    Hierarchy.StageNames(0);
    Hierarchy.StageNames(1);
    Hierarchy.StageNames(2);
    Hierarchy.StageNames(3);
  }

  /** The example's step loop from a fresh engine: `4 * (n + 1)` steps are
      one cycle followed by `4 * n` more steps from Mapping. */
  lemma RunStepsCycles(s: State, n: nat)
    ensures var cycle := NeuronCycle(s);
      RunSteps(TableStep, s, 0, 4 * (n + 1)) == if cycle.Err? then cycle else RunSteps(TableStep, cycle.value, 0, 4 * n)
  {
    var cycle := NeuronCycle(s);
    assert RunSteps(TableStep, s, 0, 4) == cycle by {
      CycleFromTable(s);
    }
    assert Hierarchy.After(0, 4) == 0 by {
      Hierarchy.AfterIsModular(0, 4);
    }
    assert 4 * (n + 1) == 4 + 4 * n;
    CycleThenSteps(TableStep, s, 4, 4 * n, cycle);
  }

  /** Steps that return to Mapping, followed by more steps from Mapping. */
  lemma CycleThenSteps(step: (Hierarchy.Pos, State) -> StageResult, s: State, a: nat, b: nat, first: StageResult)
    requires RunSteps(step, s, 0, a) == first && Hierarchy.After(0, a) == 0
    ensures RunSteps(step, s, 0, a + b) == if first.Err? then first else RunSteps(step, first.value, 0, b)
  {
    RunStepsSplit(step, s, 0, a, b);
  }

  /** `a + b` steps are `a` steps and then `b` steps from where they left off. */
  lemma {:induction false} RunStepsSplit(step: (Hierarchy.Pos, State) -> StageResult, s: State, i: Hierarchy.Pos, a: nat, b: nat)
    ensures var run := RunSteps(step, s, i, a);
      RunSteps(step, s, i, a + b) == if run.Err? then run else RunSteps(step, run.value, Hierarchy.After(i, a), b)
    decreases a
  {
    if a > 0 {
      var first := step(i, s);
      if first.Ok? {
        RunStepsSplit(step, first.value, Hierarchy.Succ(i), a - 1, b);
        Hierarchy.AfterSucc(i, a - 1);
      }
    }
  }

  /** The four stages in the configured order, stopping at the first error. */
  function NeuronCycle(s: State): (r: StageResult)
    ensures r.Ok? ==>
              && "output_signal" in r.value && "fired_this_step" in r.value
              && (r.value["output_signal"] == Int(0) || r.value["output_signal"] == Int(1))
              && !Truthy(r.value["fired_this_step"])
  {
    var mapped := NeuronMapping(s);
    var integrated :- NeuronIteration(mapped);
    var checked :- NeuronChecking(integrated);
    Ok(NeuronTransformation(checked))
  }

  /** A full cycle emits 1 exactly when the freshly integrated potential
      reached the threshold, and then leaves the potential at the reset
      value; otherwise it emits 0 and keeps the integrated potential. The
      flag is always down afterwards. The cycle fails only on a record
      Iteration cannot read, or when a firing neuron has no `cell_id`. */
  lemma NeuronCycleOutput(s: State)
    ensures NeuronCycle(s).Ok? <==>
              LifReadable(NeuronMapping(s)) && (LifOf(NeuronMapping(s)) >= VThreshold ==> "cell_id" in s)
    ensures NeuronCycle(s).Ok? ==>
              var r := NeuronCycle(s).value;
              var v := LifOf(NeuronMapping(s));
              && r["fired_this_step"] == Bool(false)
              && (r["output_signal"] == Int(1) <==> v >= VThreshold)
              && r["membrane_potential"] == Real(if v >= VThreshold then VReset else v)
  {
    var mapped := NeuronMapping(s);
    if LifReadable(mapped) {
      var integrated := NeuronIteration(mapped).value;
      assert integrated["membrane_potential"] == Real(LifOf(mapped));
      assert AsNumber(integrated["membrane_potential"]) == Some(LifOf(mapped));
      assert "cell_id" in integrated <==> "cell_id" in s;
      if LifOf(mapped) >= VThreshold {
        if "cell_id" in s {
          var checked := integrated["fired_this_step" := Bool(true)];
          assert NeuronChecking(integrated) == Ok(checked);
          assert Fired(checked);
        }
      } else {
        assert NeuronChecking(integrated) == Ok(integrated);
        assert !Fired(integrated);
      }
    }
  }

  /** The example neuron's first cycle: from rest under the default input,
      the potential rises by 0.16 mV to -69.84 mV and nothing fires. */
  lemma ExampleFirstCycle()
    ensures var s := map["membrane_potential" := Real(VRest), "output_signal" := Int(0),
                         "fired_this_step" := Bool(false),
                         "params" := Dict(map["R_M" := Real(RM), "TAU_M" := Real(TauM), "DT" := Real(Dt)]),
                         "cell_id" := Str("N1"), "cell_type" := Str("neuron")];
      && NeuronCycle(s).Ok?
      && NeuronCycle(s).value["membrane_potential"] == Real(-69.84)
      && NeuronCycle(s).value["output_signal"] == Int(0)
  {
    var s := map["membrane_potential" := Real(VRest), "output_signal" := Int(0),
                 "fired_this_step" := Bool(false),
                 "params" := Dict(map["R_M" := Real(RM), "TAU_M" := Real(TauM), "DT" := Real(Dt)]),
                 "cell_id" := Str("N1"), "cell_type" := Str("neuron")];
    var mapped := NeuronMapping(s);
    assert mapped["input_current"] == Real(DefaultInputCurrent);
    assert LifReadable(mapped);
    assert LifOf(mapped) == -69.84;
    NeuronCycleOutput(s);
  }
}
