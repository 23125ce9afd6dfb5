/** The abstract view of the cell ⊂ component ⊂ system ⊂ organism tree and the
    meaning of one `next_stage` at every level. The node classes are proved
    against `Next`; the counting facts of the multi-rate tree are lemmas here. */
module Hierarchy {
  import opened Values
  import Engine

  datatype Level = CellLevel | ComponentLevel | SystemLevel | OrganismLevel

  function Rank(level: Level): nat
  {
    match level
    case CellLevel => 0
    case ComponentLevel => 1
    case SystemLevel => 2
    case OrganismLevel => 3
  }

  /** The level of the nodes a node of `level` owns. */
  function ChildLevel(level: Level): (child: Level)
    requires level != CellLevel
    ensures Rank(child) + 1 == Rank(level)
  {
    match level
    case ComponentLevel => CellLevel
    case SystemLevel => ComponentLevel
    case OrganismLevel => SystemLevel
  }

  /** A node as its owner sees it: the engine's stage index, how many
      `next_stage` calls it has run, its committed state, and its children. */
  datatype Snapshot = Snapshot(index: Pos, steps: nat, state: State, children: seq<Snapshot>)

  /** A position in the four-stage list. */
  type Pos = i: nat | i < 4

  /** The stage at position `i` of the configured stage list. */
  function StageAt(i: Pos): string
  {
    Engine.Stages[i]
  }

  /** Where the stages sit in the configured list. */
  lemma StageNames(i: Pos)
    ensures StageAt(i) == "Mapping" <==> i == 0
    ensures StageAt(i) == "Iteration" <==> i == 1
    ensures StageAt(i) == "Checking" <==> i == 2
    ensures StageAt(i) == "Transformation" <==> i == 3
  {
  }

  /** The position after `i`, wrapping from the last stage to the first. */
  function Succ(i: Pos): Pos
  {
    if i == 3 then 0 else i + 1
  }

  /** The position `k` steps after `i`. */
  function After(i: Pos, k: nat): Pos
  {
    if k == 0 then i else Succ(After(i, k - 1))
  }

  /** Moving on one position and then `k` is moving on `k + 1`. */
  lemma {:induction false} AfterSucc(i: Pos, k: nat)
    ensures After(Succ(i), k) == After(i, k + 1)
  {
    if k > 0 {
      AfterSucc(i, k - 1);
    }
  }

  /** Moving on `k` positions is addition modulo the length of the cycle. */
  lemma {:induction false} AfterIsModular(i: Pos, k: nat)
    ensures After(i, k) == (i + k) % 4
  {
    if k > 0 {
      AfterIsModular(i, k - 1);
    }
  }

  /** The stage-function table of a node level, applied to `s`. Every stage
      returns its argument unchanged, except a cell's Transformation, which
      drops the key `inputs` (`state.pop('inputs', None)`). A stage name with
      no entry is the identity. */
  function StageFunction(level: Level, stage: string, s: State): (r: State)
    ensures level == CellLevel && stage == "Transformation" ==>
              r.Keys == s.Keys - {"inputs"} && forall k | k in r :: r[k] == s[k]
    ensures level != CellLevel || stage != "Transformation" ==> r == s
  {
    if level == CellLevel && stage == "Transformation" then s - {"inputs"} else s
  }

  /** One `next_stage` of a node at `level`: the current stage's function is
      committed as the new state, the index moves on cyclically, and when the
      stage is Iteration (position 1, see `StageNames`) every child of a
      non-leaf node takes one step. */
  function Next(level: Level, v: Snapshot): (r: Snapshot)
    decreases Rank(level), 0
    ensures r.index == (v.index + 1) % 4 && r.steps == v.steps + 1
    ensures |r.children| == |v.children|
    ensures level != CellLevel ==> r.state == v.state
  {
    Snapshot(
      Succ(v.index),
      v.steps + 1,
      StageFunction(level, StageAt(v.index), v.state),
      if v.index == 1 && level != CellLevel
      then NextAll(ChildLevel(level), v.children)
      else v.children)
  }

  /** One step of each of `vs`, in order. */
  function NextAll(level: Level, vs: seq<Snapshot>): (r: seq<Snapshot>)
    decreases Rank(level), |vs|
    ensures |r| == |vs|
  {
    if vs == [] then [] else [Next(level, vs[0])] + NextAll(level, vs[1..])
  }

  lemma {:induction false} NextAllAt(level: Level, vs: seq<Snapshot>, i: nat)
    requires i < |vs|
    ensures NextAll(level, vs)[i] == Next(level, vs[i])
  {
    if i > 0 {
      NextAllAt(level, vs[1..], i - 1);
    }
  }

  /** A node's `next_stage` put together from its parts: the stage
      function's result and the children as the stage left them. */
  lemma NextFromParts(level: Level, v: Snapshot, result: State, children: seq<Snapshot>, w: Snapshot)
    requires level != CellLevel
    requires result == StageFunction(level, StageAt(v.index), v.state)
    requires children == if StageAt(v.index) == "Iteration" then NextAll(ChildLevel(level), v.children) else v.children
    requires w == Snapshot(Succ(v.index), v.steps + 1, result, children)
    ensures w == Next(level, v)
  {
    StageNames(v.index);
  }

  /** `k` consecutive `next_stage` calls. */
  function Steps(level: Level, v: Snapshot, k: nat): (r: Snapshot)
    ensures r.steps == v.steps + k
    ensures |r.children| == |v.children|
  {
    if k == 0 then v else Next(level, Steps(level, v, k - 1))
  }

  /** `OrganismMICT.run_simulation_step`: four `next_stage` calls in a row. */
  function Tick(v: Snapshot): (r: Snapshot)
    ensures r.index == v.index && r.steps == v.steps + 4
    ensures |r.children| == |v.children|
  {
    StepsCounters(OrganismLevel, v, 4);
    OccurrencesInFour(0, v.index);
    Steps(OrganismLevel, v, 4)
  }

  /** The children of a node of `level` that one `next_stage` at stage
      position `i` steps, in the order it steps them. */
  function SteppedAt<T>(i: Pos, children: seq<T>): seq<T>
  {
    if i == 1 then children else []
  }

  /** `n` organism ticks. */
  function Ticks(v: Snapshot, n: nat): (r: Snapshot)
    ensures r.index == v.index && r.steps == v.steps + 4 * n
    ensures |r.children| == |v.children|
  {
    if n == 0 then v else Tick(Ticks(v, n - 1))
  }

  /** A tick after `n` ticks is the `n + 1`-th tick. */
  lemma TicksNext(v: Snapshot, n: nat, a: Snapshot, b: Snapshot)
    requires a == Ticks(v, n) && b == Tick(a)
    ensures b == Ticks(v, n + 1)
  {
  }

  /** How many of `k` consecutive steps, the first taken at index `start`,
      run the stage at position `target`. */
  function Occurrences(target: Pos, start: Pos, k: nat): nat
  {
    if k == 0 then 0
    else Occurrences(target, start, k - 1) + (if After(start, k - 1) == target then 1 else 0)
  }

  /** A node and all its descendants as the constructors leave them:
      stage index 0, no step taken, cells owning nothing. */
  predicate Fresh(level: Level, v: Snapshot)
    decreases Rank(level)
  {
    && v.index == 0
    && v.steps == 0
    && (level == CellLevel ==> v.children == [])
    && (level != CellLevel ==> forall i | 0 <= i < |v.children| :: Fresh(ChildLevel(level), v.children[i]))
  }

  /** Two snapshots are equal when their fields and their children are. */
  lemma SnapshotEquality(a: Snapshot, b: Snapshot)
    requires a.index == b.index && a.steps == b.steps && a.state == b.state
    requires |a.children| == |b.children|
    requires forall i | 0 <= i < |a.children| :: a.children[i] == b.children[i]
    ensures a == b
  {
    assert a.children == b.children;
  }

  // ---------------------------------------------------------------------------
  // Properties of the sequencing

  /** Each step advances the index by one position (cyclically) and counts
      one call; the number of children never changes. */
  lemma {:induction false} StepsCounters(level: Level, v: Snapshot, k: nat)
    ensures Steps(level, v, k).index == After(v.index, k)
    ensures Steps(level, v, k).steps == v.steps + k
    ensures |Steps(level, v, k).children| == |v.children|
  {
    if k > 0 {
      StepsCounters(level, v, k - 1);
    }
  }

  /** The last of `k` steps. */
  lemma StepsUnfold(level: Level, v: Snapshot, k: nat)
    requires k > 0
    ensures Steps(level, v, k) == Next(level, Steps(level, v, k - 1))
  {
  }

  /** The last of `k` steps counts when it runs the target stage. */
  lemma OccurrencesUnfold(target: Pos, start: Pos, k: nat)
    requires k > 0
    ensures Occurrences(target, start, k)
         == Occurrences(target, start, k - 1) + (if After(start, k - 1) == target then 1 else 0)
  {
  }

  /** What one `next_stage` does to the `j`-th child: one step at
      Iteration, nothing otherwise. */
  lemma NextChild(level: Level, w: Snapshot, j: nat)
    requires level != CellLevel
    requires j < |w.children|
    ensures Next(level, w).children[j]
         == if w.index == 1 then Next(ChildLevel(level), w.children[j]) else w.children[j]
  {
    if w.index == 1 {
      NextAllAt(ChildLevel(level), w.children, j);
    }
  }

  /** One more step of the parent: the `j`-th child has taken one more
      step exactly when the parent ran Iteration. */
  lemma ChildAfterStep(level: Level, w: Snapshot, j: nat, c: Snapshot, m: nat, n: nat)
    requires level != CellLevel
    requires j < |w.children| && w.children[j] == Steps(ChildLevel(level), c, m)
    requires n == m + (if w.index == 1 then 1 else 0)
    ensures Next(level, w).children[j] == Steps(ChildLevel(level), c, n)
  {
    NextChild(level, w, j);
    if w.index == 1 {
      StepsUnfold(ChildLevel(level), c, n);
    }
  }

  /** Every child of a non-leaf node has taken exactly as many steps as its
      parent has run Iteration stages, and nothing else has happened to it. */
  lemma {:induction false} StepsChildren(level: Level, v: Snapshot, k: nat, j: nat)
    requires level != CellLevel
    requires j < |v.children|
    ensures |Steps(level, v, k).children| == |v.children|
    ensures Steps(level, v, k).children[j]
         == Steps(ChildLevel(level), v.children[j], Occurrences(1, v.index, k))
  {
    if k > 0 {
      StepsChildren(level, v, k - 1, j);
      StepsCounters(level, v, k - 1);
      StepsUnfold(level, v, k);
      OccurrencesUnfold(1, v.index, k);
      ChildAfterStep(level, Steps(level, v, k - 1), j, v.children[j],
                     Occurrences(1, v.index, k - 1), Occurrences(1, v.index, k));
    }
  }

  /** Mapping, Iteration and Checking never change a node's own state, and
      only a cell's Transformation does: it removes `inputs`, once and for all. */
  lemma {:induction false} StepsState(level: Level, v: Snapshot, k: nat)
    ensures level != CellLevel ==> Steps(level, v, k).state == v.state
    ensures level == CellLevel ==>
              Steps(level, v, k).state
              == if Occurrences(3, v.index, k) > 0 then v.state - {"inputs"} else v.state
  {
    if k > 0 {
      StepsState(level, v, k - 1);
      StepsCounters(level, v, k - 1);
      var w := Steps(level, v, k - 1);
      StageNames(w.index);
      assert Steps(level, v, k).state == StageFunction(level, StageAt(w.index), w.state);
    }
  }

  /** Any four consecutive steps run each stage exactly once, and end where
      they started. */
  lemma OccurrencesInFour(target: Pos, start: Pos)
    ensures After(start, 4) == start
    ensures Occurrences(target, start, 4) == 1
  {
    assert After(start, 1) == Succ(start);
    assert After(start, 2) == Succ(Succ(start));
    assert After(start, 3) == Succ(Succ(Succ(start)));
  }

  /** From stage 0, `k` steps run Iteration `(k + 2) / 4` times. */
  lemma {:induction false} IterationsFromStart(k: nat)
    ensures Occurrences(1, 0, k) == (k + 2) / 4
  {
    if k > 0 {
      IterationsFromStart(k - 1);
      AfterIsModular(0, k - 1);
    }
  }

  /** One organism tick is one full cycle of the organism (state, index and
      step count) and exactly one step of each system, so the systems move
      on by one stage, not by one cycle. */
  lemma TickIsFourSteps(v: Snapshot, a: Snapshot, b: Snapshot, c: Snapshot, d: Snapshot)
    requires a == Next(OrganismLevel, v) && b == Next(OrganismLevel, a)
    requires c == Next(OrganismLevel, b) && d == Next(OrganismLevel, c)
    ensures d == Tick(v)
  {
    assert Steps(OrganismLevel, v, 1) == a;
    assert Steps(OrganismLevel, v, 2) == b;
    assert Steps(OrganismLevel, v, 3) == c;
  }

  /** Whatever the stage a cycle of four `next_stage` calls starts at, the
      children are stepped in exactly one of them: once each, in order. */
  lemma SteppedOnceInFour<T>(i: Pos, children: seq<T>)
    ensures SteppedAt(i, children) + SteppedAt(Succ(i), children)
            + SteppedAt(Succ(Succ(i)), children) + SteppedAt(Succ(Succ(Succ(i))), children)
         == children
  {
  }

  lemma TickStepsEachSystemOnce(v: Snapshot)
    ensures Tick(v).index == v.index
    ensures Tick(v).steps == v.steps + 4
    ensures Tick(v).state == v.state
    ensures |Tick(v).children| == |v.children|
    ensures forall j | 0 <= j < |v.children| :: Tick(v).children[j] == Next(SystemLevel, v.children[j])
  {
    StepsCounters(OrganismLevel, v, 4);
    StepsState(OrganismLevel, v, 4);
    OccurrencesInFour(1, v.index);
    forall j | 0 <= j < |v.children|
      ensures Tick(v).children[j] == Next(SystemLevel, v.children[j])
    {
      TickStepsSystem(v, j);
    }
  }

  lemma TickStepsSystem(v: Snapshot, j: nat)
    requires j < |v.children|
    ensures |Tick(v).children| == |v.children|
    ensures Tick(v).children[j] == Next(SystemLevel, v.children[j])
  {
    OccurrencesInFour(1, v.index);
    StepsChildren(OrganismLevel, v, 4, j);
    assert Steps(SystemLevel, v.children[j], 1) == Next(SystemLevel, v.children[j]);
  }

  /** After `n` ticks every system has been stepped exactly `n` times. */
  lemma {:induction false} TicksStepSystems(v: Snapshot, n: nat)
    ensures Ticks(v, n).index == v.index
    ensures Ticks(v, n).steps == v.steps + 4 * n
    ensures Ticks(v, n).state == v.state
    ensures |Ticks(v, n).children| == |v.children|
    ensures forall j | 0 <= j < |v.children| :: Ticks(v, n).children[j] == Steps(SystemLevel, v.children[j], n)
  {
    if n > 0 {
      var w := Ticks(v, n - 1);
      TicksStepSystems(v, n - 1);
      TickStepsEachSystemOnce(w);
      forall j | 0 <= j < |v.children|
        ensures Ticks(v, n).children[j] == Steps(SystemLevel, v.children[j], n)
      {
        assert Ticks(v, n).children[j] == Next(SystemLevel, w.children[j]);
      }
    }
  }

  /** The multi-rate tree: starting from freshly built nodes, `n` organism
      ticks step every system `n` times and every component `(n + 2) / 4`
      times; the organism itself has run `4 * n` stages and is back at the
      first one, and no non-leaf state has changed. */
  lemma FreshTreeAfterTicks(v: Snapshot, n: nat, j: nat, c: nat)
    requires Fresh(OrganismLevel, v)
    requires j < |v.children| && c < |v.children[j].children|
    ensures Ticks(v, n).index == 0 && Ticks(v, n).steps == 4 * n && Ticks(v, n).state == v.state
    ensures |Ticks(v, n).children| == |v.children|
    ensures |Ticks(v, n).children[j].children| == |v.children[j].children|
    ensures Ticks(v, n).children[j].steps == n
    ensures Ticks(v, n).children[j].state == v.children[j].state
    ensures Ticks(v, n).children[j].children[c] == Steps(ComponentLevel, v.children[j].children[c], (n + 2) / 4)
    ensures Ticks(v, n).children[j].children[c].steps == (n + 2) / 4
    ensures Ticks(v, n).children[j].children[c].state == v.children[j].children[c].state
  {
    var sys := v.children[j];
    var comp := sys.children[c];
    TicksStepSystems(v, n);
    assert Ticks(v, n).children[j] == Steps(SystemLevel, sys, n);
    StepsCounters(SystemLevel, sys, n);
    StepsState(SystemLevel, sys, n);
    StepsChildren(SystemLevel, sys, n, c);
    IterationsFromStart(n);
    StepsCounters(ComponentLevel, comp, (n + 2) / 4);
    StepsState(ComponentLevel, comp, (n + 2) / 4);
  }

  /** ... and every cell `(m + 2) / 4` times, where `m` is its component's count. */
  lemma FreshCellsAfterTicks(v: Snapshot, n: nat, j: nat, c: nat, e: nat)
    requires Fresh(OrganismLevel, v)
    requires j < |v.children| && c < |v.children[j].children| && e < |v.children[j].children[c].children|
    ensures |Ticks(v, n).children| == |v.children|
    ensures |Ticks(v, n).children[j].children| == |v.children[j].children|
    ensures |Ticks(v, n).children[j].children[c].children| == |v.children[j].children[c].children|
    ensures Ticks(v, n).children[j].children[c].children[e].steps == ((n + 2) / 4 + 2) / 4
  {
    var comp := v.children[j].children[c];
    var m := (n + 2) / 4;
    FreshTreeAfterTicks(v, n, j, c);
    StepsCounters(ComponentLevel, comp, m);
    StepsChildren(ComponentLevel, comp, m, e);
    IterationsFromStart(m);
    StepsCounters(CellLevel, comp.children[e], (m + 2) / 4);
  }
}
