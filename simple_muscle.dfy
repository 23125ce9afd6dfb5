/** The stage functions of the muscle example: Mapping generates a square
    wave of input from a step counter kept in the record, Iteration moves
    the contraction level up or down and clamps it, Checking and
    Transformation change nothing. Floats are modelled as reals. */
module SimpleMuscle {
  import opened Values

  const MaxContraction: real := 1.0
  /** Contraction gained per step with input, and lost per step without. */
  const ContractionRate: real := 0.1
  const RelaxationRate: real := 0.05
  const Dt: real := 0.1

  /** The input of the mapping taken at count `c`: on for 50 consecutive
      counts, then off for 50. Python's `//` and `%` by a positive divisor
      agree with Dafny's. */
  function SquareWave(c: int): (w: int)
    ensures w == 0 || w == 1
  {
    if (c / 50) % 2 == 0 then 1 else 0
  }

  /** The wave repeats every 100 counts. */
  lemma SquareWavePeriodic(c: int)
    ensures SquareWave(c + 100) == SquareWave(c)
  {
    assert (c + 100) / 50 == c / 50 + 2;
  }

  /** Within each period the wave is on for the first 50 counts and off for
      the last 50. */
  lemma SquareWaveShape(c: int)
    ensures SquareWave(c) == 1 <==> c % 100 < 50
  {
    var q := c / 100;
    var m := c % 100;
    assert c == 100 * q + m;
    if m < 50 {
      assert c / 50 == 2 * q;
    } else {
      assert c / 50 == 2 * q + 1;
    }
  }

  /** Mapping: read `step_count` (0 when missing), set `input_signal` from
      the wave and count one more mapping. A float counter is floored as
      `//` floors it; a counter that is not a number raises `TypeError`. */
  function MuscleMapping(s: State): (r: StageResult)
    ensures r.Ok? <==> AsNumber(Get(s, "step_count", Int(0))).Some?
    ensures r.Ok? ==>
              && r.value.Keys == s.Keys + {"input_signal", "step_count"}
              && forall k | k in s && k != "input_signal" && k != "step_count" :: r.value[k] == s[k]
    ensures Get(s, "step_count", Int(0)).Int? ==>
              var c := Get(s, "step_count", Int(0)).i;
              r.Ok? && r.value["input_signal"] == Int(SquareWave(c)) && r.value["step_count"] == Int(c + 1)
    ensures Get(s, "step_count", Int(0)).Bool? ==>
              var c := if Get(s, "step_count", Int(0)).b then 1 else 0;
              r.Ok? && r.value["input_signal"] == Int(SquareWave(c)) && r.value["step_count"] == Int(c + 1)
    ensures r.Err? ==> r == Err(TypeError)
    ensures Get(s, "step_count", Int(0)).Real? ==>
              var x := Get(s, "step_count", Int(0)).r;
              r.Ok? && r.value["input_signal"] == Int(SquareWave(x.Floor)) && r.value["step_count"] == Real(x + 1.0)
  {
    var count := Get(s, "step_count", Int(0));
    match count
    case Int(c) => Ok(s["input_signal" := Int(SquareWave(c))]["step_count" := Int(c + 1)])
    case Bool(b) =>
      var c := if b then 1 else 0;
      Ok(s["input_signal" := Int(SquareWave(c))]["step_count" := Int(c + 1)])
    case Real(x) => Ok(s["input_signal" := Int(FloatSquareWave(x))]["step_count" := Real(x + 1.0)])
    case _ => Err(TypeError)
  }

  /** `1 if (x // 50) % 2 == 0 else 0` for a float `x`: the floor of the
      quotient, reduced modulo 2. */
  function FloatSquareWave(x: real): (w: int)
    ensures w == SquareWave(x.Floor)
  {
    var q := (x / 50.0).Floor;
    FloorQuotient(x);
    if q % 2 == 0 then 1 else 0
  }

  /** Flooring `x` before dividing by 50 gives the same quotient. */
  lemma FloorQuotient(x: real)
    ensures (x / 50.0).Floor == x.Floor / 50
  {
    var f := x.Floor;
    var q := f / 50;
    assert 50 * q <= f < 50 * q + 50;
    assert (50 * q) as real <= x < (50 * q + 50) as real;
    assert q as real <= x / 50.0 < (q + 1) as real;
  }

  /** `max(0.0, min(MAX_CONTRACTION, x))` */
  function Clamp(x: real): (c: real)
    ensures 0.0 <= c <= MaxContraction
    ensures 0.0 <= x <= MaxContraction ==> c == x
    ensures x > MaxContraction ==> c == MaxContraction
    ensures x < 0.0 ==> c == 0.0
  {
    var upper := if MaxContraction < x then MaxContraction else x;
    if 0.0 < upper then upper else 0.0
  }

  /** The contraction level after one Iteration with input `input`. */
  function Contract(level: real, input: real): (c: real)
    ensures 0.0 <= c <= MaxContraction
  {
    if input > 0.0 then Clamp(level + ContractionRate * Dt) else Clamp(level - RelaxationRate * Dt)
  }

  /** Iteration: contract when the input is positive, relax otherwise, and
      clamp the level to `[0, MAX_CONTRACTION]`. */
  function MuscleIteration(s: State): (r: StageResult)
    ensures r.Ok? <==>
              && "contraction_level" in s && "input_signal" in s
              && AsNumber(s["contraction_level"]).Some? && AsNumber(s["input_signal"]).Some?
    ensures "contraction_level" !in s ==> r == Err(KeyError("contraction_level"))
    ensures "contraction_level" in s && "input_signal" !in s ==> r == Err(KeyError("input_signal"))
    ensures "contraction_level" in s && "input_signal" in s && r.Err? ==> r == Err(TypeError)
    ensures r.Ok? ==>
              && r.value.Keys == s.Keys
              && r.value["contraction_level"].Real?
              && 0.0 <= r.value["contraction_level"].r <= MaxContraction
              && r.value["contraction_level"]
                 == Real(Contract(AsNumber(s["contraction_level"]).value, AsNumber(s["input_signal"]).value))
              && forall k | k in s && k != "contraction_level" :: r.value[k] == s[k]
  {
    var level :- Lookup(s, "contraction_level");
    var input :- Lookup(s, "input_signal");
    var ix :- Number(input);
    var lx :- Number(level);
    Ok(s["contraction_level" := Real(Contract(lx, ix))])
  }

  /** From a level within the range, input never lowers the contraction and
      its absence never raises it; each step moves it by at most the rate. */
  lemma ContractMonotone(level: real, input: real)
    requires 0.0 <= level <= MaxContraction
    ensures input > 0.0 ==> level <= Contract(level, input) <= level + ContractionRate * Dt
    ensures input <= 0.0 ==> level - RelaxationRate * Dt <= Contract(level, input) <= level
  {
  }

  /** `ContractionRate * Dt` is 1/100 of the range: 100 steps with input
      take a relaxed muscle to full contraction. */
  lemma FullContraction(k: nat)
    requires k <= 100
    ensures ContractAll(0.0, k) == k as real * (ContractionRate * Dt)
  {
    if k > 0 {
      FullContraction(k - 1);
    }
  }

  /** `k` Iterations with input, from `level`. */
  function ContractAll(level: real, k: nat): real
  {
    if k == 0 then level else Contract(ContractAll(level, k - 1), 1.0)
  }

  /** Checking and Transformation return the record unchanged. */
  function MuscleChecking(s: State): (r: State)
    ensures r == s
  {
    s
  }

  function MuscleTransformation(s: State): (r: State)
    ensures r == s
  {
    s
  }

  /** The four stages in the configured order, stopping at the first error. */
  function MuscleCycle(s: State): (r: StageResult)
    ensures r.Ok? <==>
              && AsNumber(Get(s, "step_count", Int(0))).Some?
              && "contraction_level" in s && AsNumber(s["contraction_level"]).Some?
    ensures r.Err? ==> r.error == TypeError || r.error == KeyError("contraction_level")
    ensures r.Ok? ==>
              && r.value.Keys == s.Keys + {"input_signal", "step_count"}
              && r.value["contraction_level"].Real?
              && 0.0 <= r.value["contraction_level"].r <= MaxContraction
  {
    var mapped :- MuscleMapping(s);
    var contracted :- MuscleIteration(mapped);
    Ok(MuscleTransformation(MuscleChecking(contracted)))
  }

  /** `n` full cycles. */
  function MuscleCycles(s: State, n: nat): (r: StageResult)
    ensures r.Err? ==> r.error == TypeError || r.error == KeyError("contraction_level")
    ensures n > 0 && r.Ok? ==>
              "contraction_level" in r.value && r.value["contraction_level"].Real? && 0.0 <= r.value["contraction_level"].r <= MaxContraction
  {
    if n == 0 then Ok(s) else
      var before :- MuscleCycles(s, n - 1);
      MuscleCycle(before)
  }

  /** A muscle with an integer counter `c` and a numeric contraction level
      runs any number of cycles without error: after `n` of them the counter
      is `c + n`, the last input was the wave at `c + n - 1`, and the level
      has stayed within range. */
  lemma {:induction false} MuscleCyclesCount(s: State, n: nat)
    requires "step_count" in s && s["step_count"].Int?
    requires "contraction_level" in s && AsNumber(s["contraction_level"]).Some?
    ensures MuscleCycles(s, n).Ok?
    ensures var r := MuscleCycles(s, n).value;
      && r.Keys == s.Keys + (if n > 0 then {"input_signal"} else {})
      && r["step_count"] == Int(s["step_count"].i + n)
      && AsNumber(r["contraction_level"]).Some?
      && (n > 0 ==> r["input_signal"] == Int(SquareWave(s["step_count"].i + n - 1)))
      && (n > 0 ==> r["contraction_level"].Real? && 0.0 <= r["contraction_level"].r <= MaxContraction)
  {
    if n > 0 {
      MuscleCyclesCount(s, n - 1);
      var before := MuscleCycles(s, n - 1).value;
      var c := s["step_count"].i + n - 1;
      assert Get(before, "step_count", Int(0)) == Int(c);
      var mapped := MuscleMapping(before).value;
      assert mapped["step_count"] == Int(c + 1);
      assert mapped.Keys == before.Keys + {"input_signal"};
      assert mapped["input_signal"] == Int(SquareWave(s["step_count"].i + n - 1));
      assert mapped["contraction_level"] == before["contraction_level"];
      var contracted := MuscleIteration(mapped).value;
      assert MuscleCycles(s, n) == Ok(contracted);
    }
  }
}
