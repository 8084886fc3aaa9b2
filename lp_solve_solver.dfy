/**
 * solver/LpSolveSolver: the Solver implementation over lp_solve. The object wraps one
 * native model; here its fields are that model's state, and every operation is proved to
 * have the effect `SolverModel.Apply` gives the corresponding call.
 */
module LpSolve {
  import opened Wrappers
  import opened Exceptions
  import opened SolverModel

  class LpSolveSolver {
    const engine: NativeEngine
    var ncols: nat
    var binaries: set<int>
    var rows: seq<Row>
    var lower: map<int, real>
    var upper: map<int, real>
    var objective: map<int, real>
    var maximize: bool
    var timeout: int
    var gap: real
    /** The outcome of the last native `solve`, if any. */
    var lastRun: Option<NativeRun>
    var freed: bool

    function Snapshot(): Model
      reads this
    {
      Model(ncols, binaries, rows, lower, upper, objective, maximize, timeout, gap)
    }

    /** The lifecycle part of the state, untouched by the model-building operations. */
    predicate Live()
      reads this
    {
      !freed
    }

    /** lp_solve's own test of the column numbers a native call receives. */
    function NativeAccepts(keys: set<int>): (ok: bool)
      reads this
      ensures ok <==> ColumnsValid(Snapshot(), keys)
    {
      forall k :: k in keys ==> 1 <= k <= ncols
    }

    /** `new LpSolveSolver()`: an empty model to be minimized. */
    constructor (engine: NativeEngine)
      ensures this.engine == engine
      ensures Snapshot() == EmptyModel
      ensures lastRun == None && !freed
    {
      this.engine := engine;
      ncols := 0;
      binaries := {};
      rows := [];
      lower := map[];
      upper := map[];
      objective := map[];
      timeout := 0;
      gap := DEFAULT_RELATIVE_GAP;
      lastRun := None;
      freed := false;
      maximize := false;
    }

    /** `addVariables(n)`: appends n continuous columns one by one and returns the first one's index. */
    method AddVariables(numberOfVariables: int) returns (firstVariableIndex: int)
      requires !freed
      modifies this
      ensures (Snapshot(), firstVariableIndex) == AddColumns(old(Snapshot()), numberOfVariables, false)
      ensures lastRun == old(lastRun) && freed == old(freed)
    {
      firstVariableIndex := ncols + 1;
      var i := 0;
      while i < numberOfVariables
        invariant 0 <= i <= Width(numberOfVariables)
        invariant Snapshot() == old(Snapshot()).(ncols := old(ncols) + i)
        invariant lastRun == old(lastRun) && freed == old(freed)
      {
        ncols := ncols + 1;
        i := i + 1;
      }
    }

    /** `addBinaryVariables(n)`: the same, declaring each new column binary. */
    method AddBinaryVariables(numberOfVariables: int) returns (firstVariableIndex: int)
      requires !freed
      modifies this
      ensures (Snapshot(), firstVariableIndex) == AddColumns(old(Snapshot()), numberOfVariables, true)
      ensures lastRun == old(lastRun) && freed == old(freed)
    {
      firstVariableIndex := ncols + 1;
      var i := 0;
      while i < numberOfVariables
        invariant 0 <= i <= Width(numberOfVariables)
        invariant Snapshot() == old(Snapshot()).(ncols := old(ncols) + i,
                                                 binaries := old(binaries) + Block(firstVariableIndex, i))
        invariant lastRun == old(lastRun) && freed == old(freed)
      {
        ncols := ncols + 1;
        binaries := binaries + {firstVariableIndex + i};
        i := i + 1;
      }
    }

    /** Storing one more entry of `bounds` into a partially overridden map. */
    static lemma OverrideStep(current: map<int, real>, bounds: map<int, real>, remaining: set<int>, key: int)
      requires key in remaining && key in bounds
      ensures (current + (bounds - remaining))[key := bounds[key]] == current + (bounds - (remaining - {key}))
    {
    }

    /** The key the range check of `addWeightedSumConstraint` reports, if any key exceeds the column count. */
    static method FindOutOfRange(keys: set<int>, maxIndex: int) returns (offending: Option<int>)
      ensures offending.None? <==> forall k :: k in keys ==> k <= maxIndex
      ensures offending.Some? ==> offending.value in keys && offending.value > maxIndex
    {
      var remaining := keys;
      while remaining != {}
        invariant remaining <= keys
        invariant forall k :: k in keys && k !in remaining ==> k <= maxIndex
        decreases |remaining|
      {
        NonEmptyHasElement(remaining);
        var key :| key in remaining;
        if key > maxIndex {
          return Some(key);
        }
        remaining := remaining - {key};
      }
      return None;
    }

    /** `addWeightedSumConstraint`: every key is checked against the column count before the native call. */
    method AddWeightedSumConstraint(weights: map<int, real>, sense: Sense, value: real) returns (o: Outcome<string>)
      requires !freed
      modifies this
      ensures Performed(old(Snapshot()), [WeightedSum(weights, sense, value)], Snapshot(), o, engine)
      ensures o.Fail? ==> Snapshot() == old(Snapshot())
      ensures lastRun == old(lastRun) && freed == old(freed)
    {
      var maxIndex := ncols;
      var offending := FindOutOfRange(weights.Keys, maxIndex);
      if offending.Some? {
        o := Fail(RangeMessage(offending.value, maxIndex));
        PerformedOne(Snapshot(), WeightedSum(weights, sense, value), Snapshot(), o, engine);
        return;
      }
      if !NativeAccepts(weights.Keys) {
        o := Fail(engine.rejectText(AddConstraint));
        PerformedOne(Snapshot(), WeightedSum(weights, sense, value), Snapshot(), o, engine);
        return;
      }
      rows := rows + [Row(weights, sense, value)];
      o := Pass;
      PerformedOne(old(Snapshot()), WeightedSum(weights, sense, value), Snapshot(), o, engine);
    }

    method AddEqWeightedSumConstraint(weights: map<int, real>, value: real) returns (o: Outcome<string>)
      requires !freed
      modifies this
      ensures Performed(old(Snapshot()), [WeightedSum(weights, Eq, value)], Snapshot(), o, engine)
      ensures o.Fail? ==> Snapshot() == old(Snapshot())
      ensures lastRun == old(lastRun) && freed == old(freed)
    {
      o := AddWeightedSumConstraint(weights, Eq, value);
    }

    method AddLeqWeightedSumConstraint(weights: map<int, real>, max: real) returns (o: Outcome<string>)
      requires !freed
      modifies this
      ensures Performed(old(Snapshot()), [WeightedSum(weights, Le, max)], Snapshot(), o, engine)
      ensures o.Fail? ==> Snapshot() == old(Snapshot())
      ensures lastRun == old(lastRun) && freed == old(freed)
    {
      o := AddWeightedSumConstraint(weights, Le, max);
    }

    method AddGeqWeightedSumConstraint(weights: map<int, real>, min: real) returns (o: Outcome<string>)
      requires !freed
      modifies this
      ensures Performed(old(Snapshot()), [WeightedSum(weights, Ge, min)], Snapshot(), o, engine)
      ensures o.Fail? ==> Snapshot() == old(Snapshot())
      ensures lastRun == old(lastRun) && freed == old(freed)
    {
      o := AddWeightedSumConstraint(weights, Ge, min);
    }

    /** `addEqSumConstraint(set, value)`: coefficient 1 on each index. */
    method AddEqSumConstraint(indexes: set<int>, value: real) returns (o: Outcome<string>)
      requires !freed
      modifies this
      ensures Performed(old(Snapshot()), [SumCall(indexes, Eq, value)], Snapshot(), o, engine)
      ensures o.Fail? ==> Snapshot() == old(Snapshot())
      ensures lastRun == old(lastRun) && freed == old(freed)
    {
      o := AddEqWeightedSumConstraint(UnitWeights(indexes), value);
    }

    method AddLeqSumConstraint(indexes: set<int>, max: real) returns (o: Outcome<string>)
      requires !freed
      modifies this
      ensures Performed(old(Snapshot()), [SumCall(indexes, Le, max)], Snapshot(), o, engine)
      ensures o.Fail? ==> Snapshot() == old(Snapshot())
      ensures lastRun == old(lastRun) && freed == old(freed)
    {
      o := AddLeqWeightedSumConstraint(UnitWeights(indexes), max);
    }

    /** `addGeqSumConstraint(list, min)`: the list goes through `toMap`, which throws on a repeated index. */
    method AddGeqSumConstraint(indexes: seq<int>, min: real) returns (o: Outcome<string>)
      requires !freed
      modifies this
      ensures Performed(old(Snapshot()), [GeqSumCall(indexes, min)], Snapshot(), o, engine)
      ensures o.Fail? ==> Snapshot() == old(Snapshot())
      ensures lastRun == old(lastRun) && freed == old(freed)
    {
      var repeat := FirstRepeat(indexes);
      if repeat.Some? {
        o := Fail(DuplicateUnitKey(repeat.value).message);
        PerformedOne(Snapshot(), GeqSumCall(indexes, min), Snapshot(), o, engine);
        return;
      }
      o := AddGeqWeightedSumConstraint(UnitWeights(SetOf(indexes)), min);
    }

    /** `addImplication(x, b, bigM)`: the row x - bigM * b <= 0. */
    method AddImplication(continuousVariableIndex: int, binaryVariableIndex: int, bigM: real) returns (o: Outcome<string>)
      requires !freed
      modifies this
      ensures Performed(old(Snapshot()), [ImplicationCall(continuousVariableIndex, binaryVariableIndex, bigM)], Snapshot(), o, engine)
      ensures o.Fail? ==> Snapshot() == old(Snapshot())
      ensures lastRun == old(lastRun) && freed == old(freed)
    {
      var indexedValues: map<int, real> := map[];
      indexedValues := indexedValues[continuousVariableIndex := 1.0];
      indexedValues := indexedValues[binaryVariableIndex := -1.0 * bigM];
      o := AddLeqWeightedSumConstraint(indexedValues, 0.0);
    }

    /** `addSumImplication(xs, b, bigM)`: the row sum(xs) - bigM * b <= 0. */
    method AddSumImplication(continuousVariableIndexes: seq<int>, binaryVariableIndex: int, bigM: real) returns (o: Outcome<string>)
      requires !freed
      modifies this
      ensures Performed(old(Snapshot()), [SumImplicationCall(continuousVariableIndexes, binaryVariableIndex, bigM)], Snapshot(), o, engine)
      ensures o.Fail? ==> Snapshot() == old(Snapshot())
      ensures lastRun == old(lastRun) && freed == old(freed)
    {
      var repeat := FirstRepeat(continuousVariableIndexes);
      if repeat.Some? {
        o := Fail(DuplicateUnitKey(repeat.value).message);
        PerformedOne(Snapshot(), SumImplicationCall(continuousVariableIndexes, binaryVariableIndex, bigM), Snapshot(), o, engine);
        return;
      }
      var indexedValues := UnitWeights(SetOf(continuousVariableIndexes));
      indexedValues := indexedValues[binaryVariableIndex := -1.0 * bigM];
      o := AddLeqWeightedSumConstraint(indexedValues, 0.0);
    }

    /** `fixVariables`: one native equality row per entry, in iteration order. */
    method FixVariables(entries: seq<(int, real)>) returns (o: Outcome<string>)
      requires !freed
      modifies this
      ensures Performed(old(Snapshot()), [Fix(entries)], Snapshot(), o, engine)
      ensures o.Fail? ==> Snapshot() == old(Snapshot()).(rows := rows)
      ensures lastRun == old(lastRun) && freed == old(freed)
    {
      var i := 0;
      while i < |entries|
        invariant 0 <= i <= |entries|
        invariant forall j :: 0 <= j < i ==> ValidColumn(old(Snapshot()), entries[j].0)
        invariant Snapshot() == old(Snapshot()).(rows := old(rows) + FixRows(entries[..i]))
        invariant lastRun == old(lastRun) && freed == old(freed)
      {
        if !NativeAccepts({entries[i].0}) {
          o := Fail(engine.rejectText(AddConstraint));
          PerformedOne(old(Snapshot()), Fix(entries), Snapshot(), o, engine);
          return;
        }
        assert entries[..i + 1][..i] == entries[..i];
        rows := rows + [FixRow(entries[i])];
        i := i + 1;
      }
      assert entries[..i] == entries;
      o := Pass;
      PerformedOne(old(Snapshot()), Fix(entries), Snapshot(), o, engine);
    }

    /**
     * The loop of `addUpperBounds` / `addLowerBounds`: the entries of `bounds` stored into
     * `current` one native call at a time, until a column outside 1..ncols is refused.
     */
    static method SetBoundsOneByOne(ncols: nat, current: map<int, real>, bounds: map<int, real>)
      returns (updated: map<int, real>, rejected: bool)
      ensures rejected <==> exists k :: k in bounds && !(1 <= k <= ncols)
      ensures !rejected ==> updated == current + bounds
    {
      updated := current;
      var remaining := bounds.Keys;
      while remaining != {}
        invariant remaining <= bounds.Keys
        invariant forall k :: k in bounds && k !in remaining ==> 1 <= k <= ncols
        invariant updated == current + (bounds - remaining)
        decreases |remaining|
      {
        NonEmptyHasElement(remaining);
        var key :| key in remaining;
        if !(1 <= key <= ncols) {
          return updated, true;
        }
        OverrideStep(current, bounds, remaining, key);
        updated := updated[key := bounds[key]];
        remaining := remaining - {key};
      }
      assert bounds - remaining == bounds;
      rejected := false;
    }

    /** `addUpperBounds`: one native `setUpbo` per entry, in iteration order. */
    method AddUpperBounds(bounds: map<int, real>) returns (o: Outcome<string>)
      requires !freed
      modifies this
      ensures Performed(old(Snapshot()), [UpperBounds(bounds)], Snapshot(), o, engine)
      ensures o.Fail? ==> Snapshot() == old(Snapshot()).(upper := upper)
      ensures lastRun == old(lastRun) && freed == old(freed)
    {
      var updated, rejected := SetBoundsOneByOne(ncols, upper, bounds);
      upper := updated;
      if rejected {
        o := Fail(engine.rejectText(SetUpperBound));
      } else {
        o := Pass;
      }
      PerformedOne(old(Snapshot()), UpperBounds(bounds), Snapshot(), o, engine);
    }

    /** `addLowerBounds`: one native `setLowbo` per entry, in iteration order. */
    method AddLowerBounds(bounds: map<int, real>) returns (o: Outcome<string>)
      requires !freed
      modifies this
      ensures Performed(old(Snapshot()), [LowerBounds(bounds)], Snapshot(), o, engine)
      ensures o.Fail? ==> Snapshot() == old(Snapshot()).(lower := lower)
      ensures lastRun == old(lastRun) && freed == old(freed)
    {
      var updated, rejected := SetBoundsOneByOne(ncols, lower, bounds);
      lower := updated;
      if rejected {
        o := Fail(engine.rejectText(SetLowerBound));
      } else {
        o := Pass;
      }
      PerformedOne(old(Snapshot()), LowerBounds(bounds), Snapshot(), o, engine);
    }

    /** `setObjectiveFunction`: one native `setObjFnex` with all coefficients; unlisted columns get 0. */
    method SetObjectiveFunction(coefficients: map<int, real>) returns (o: Outcome<string>)
      requires !freed
      modifies this
      ensures Performed(old(Snapshot()), [SetObjective(coefficients)], Snapshot(), o, engine)
      ensures o.Fail? ==> Snapshot() == old(Snapshot())
      ensures lastRun == old(lastRun) && freed == old(freed)
    {
      if !NativeAccepts(coefficients.Keys) {
        o := Fail(engine.rejectText(SetObjectiveRow));
        PerformedOne(Snapshot(), SetObjective(coefficients), Snapshot(), o, engine);
        return;
      }
      objective := coefficients;
      o := Pass;
      PerformedOne(old(Snapshot()), SetObjective(coefficients), Snapshot(), o, engine);
    }

    method SetObjectiveDirection(direction: ObjectiveDirection)
      requires !freed
      modifies this
      ensures Snapshot() == old(Snapshot()).(maximize := direction == Max)
      ensures lastRun == old(lastRun) && freed == old(freed)
    {
      if direction == Max {
        maximize := true;
      } else {
        maximize := false;
      }
    }

    /** `getObjectiveDirection`: the direction set last (MIN after construction). */
    method GetObjectiveDirection() returns (direction: ObjectiveDirection)
      requires !freed
      ensures direction == Max <==> maximize
    {
      if maximize {
        direction := Max;
      } else {
        direction := Min;
      }
    }

    method SetRelativeGap(relativeGap: real)
      requires !freed
      modifies this
      ensures Snapshot() == old(Snapshot()).(gap := relativeGap)
      ensures lastRun == old(lastRun) && freed == old(freed)
    {
      gap := relativeGap;
    }

    method SetTimeOut(timeOutSeconds: int)
      requires !freed
      modifies this
      ensures Snapshot() == old(Snapshot()).(timeout := timeOutSeconds)
      ensures lastRun == old(lastRun) && freed == old(freed)
    {
      timeout := timeOutSeconds;
    }

    /** `solve()`: runs the native engine on the model built so far and maps its result code. */
    method Solve() returns (r: Result<SolutionStatus, string>)
      requires !freed
      modifies this
      ensures Snapshot() == old(Snapshot()) && freed == old(freed)
      ensures lastRun == Some(engine.run(Snapshot()))
      ensures match engine.run(Snapshot())
              case Threw(msg) => r == Failure(msg)
              case Finished(code, _, _, _) => r == Success(StatusOfCode(code))
    {
      var run := engine.run(Snapshot());
      lastRun := Some(run);
      match run
      case Threw(msg) =>
        r := Failure(msg);
      case Finished(code, _, _, _) =>
        r := Success(StatusOfCode(code));
    }

    /** `getObjectiveValue()`, available after a finished solve. */
    method GetObjectiveValue() returns (value: real)
      requires !freed && lastRun.Some? && lastRun.value.Finished?
      ensures value == lastRun.value.objectiveValue
    {
      value := lastRun.value.objectiveValue;
    }

    /** `getSolution()`: a TreeMap filled with the primal value of every column 1..ncols. */
    method GetSolution() returns (solution: map<int, real>)
      requires !freed && lastRun.Some? && lastRun.value.Finished?
      ensures solution == SolutionMap(ncols, lastRun.value.values)
    {
      var values := lastRun.value.values;
      solution := map[];
      var i := 1;
      while i <= ncols
        invariant 1 <= i <= ncols + 1
        invariant solution == SolutionMap(i - 1, values)
      {
        solution := solution[i := values(i)];
        i := i + 1;
      }
    }

    /** `getSolutionRelativeGap()`: lp_solve's `getMipGap(false)`, the relative gap setting. */
    method GetSolutionRelativeGap() returns (relativeGap: real)
      requires !freed
      ensures relativeGap == gap
    {
      relativeGap := gap;
    }

    /** `getSolutionElapsedTime()`, available after a finished solve. */
    method GetSolutionElapsedTime() returns (elapsed: real)
      requires !freed && lastRun.Some? && lastRun.value.Finished?
      ensures elapsed == lastRun.value.elapsed
    {
      elapsed := lastRun.value.elapsed;
    }

    /** `free()`: the final call of the lifecycle. */
    method Free()
      requires !freed
      modifies this
      ensures freed
      ensures Snapshot() == old(Snapshot()) && lastRun == old(lastRun)
    {
      freed := true;
    }
  }
}
