/**
 * service/OptimizerImpl: `solve` builds the mixed-integer model of a task on a fresh
 * LpSolveSolver, runs the native engine and reads the solution back into a Result. Every
 * exception raised on the way ends the run with SOLUTION_NOT_FOUND and the exception's
 * message, keeping whatever the result builder already held.
 *
 * `SolvedAs` says, with pure functions only, which Result a run produces; the class's
 * `Solve` is proved to produce it, and the lemmas below state what it means.
 */
module Optimizer {
  import opened Wrappers
  import opened SolverModel
  import opened Tasks
  import opened Layouts
  import opened Balance
  import opened ModelCalls
  import opened ModelBuilder
  import opened LpSolve
  import opened Decode
  import R = Results

  const NotFoundMessage: string := "Solution could not be found."

  /** The solver after `new LpSolveSolver()`, `setTimeOut` and `setRelativeGap`. */
  function Configured(task: Task, maxAllowedTimeOut: int, numericalZero: real): Model {
    EmptyModel.(timeout := Wrappers.Min(task.timeoutSeconds, maxAllowedTimeOut),
                gap := MaxReal(numericalZero, task.relativeGap))
  }

  /** The model and index records after the three `assign*Variables` phases. */
  function Built(task: Task, maxAllowedTimeOut: int, numericalZero: real): (Model, Layout) {
    Allocate(Configured(task, maxAllowedTimeOut, numericalZero), task)
  }

  /** The model handed to the native `solve`, or the failure of the set-up that stopped first. */
  function BuildRun(task: Task, maxAllowedTimeOut: int, numericalZero: real): Result<Model, Failure> {
    var built := Built(task, maxAllowedTimeOut, numericalZero);
    ApplyAll(built.0, BuildCalls(task, built.1))
  }

  /** The layout's columns are exactly the columns of the built model. */
  lemma BuiltAllocated(task: Task, maxAllowedTimeOut: int, numericalZero: real)
    requires BuildRun(task, maxAllowedTimeOut, numericalZero).Success?
    ensures Allocated(task, Built(task, maxAllowedTimeOut, numericalZero).1, 1,
                      BuildRun(task, maxAllowedTimeOut, numericalZero).value.ncols + 1)
  {
    var built := Built(task, maxAllowedTimeOut, numericalZero);
    ApplyAllKeeps(built.0, BuildCalls(task, built.1));
  }

  /** The catch clause: SOLUTION_NOT_FOUND with the message, every other field kept. */
  function NotFound(builder: R.Result, message: string): (r: R.Result)
    ensures r.optimizationStatus == Some(R.SolutionNotFound) && r.errorMessage == Some(message)
    ensures r.(optimizationStatus := builder.optimizationStatus, errorMessage := builder.errorMessage) == builder
  {
    builder.(optimizationStatus := Some(R.SolutionNotFound), errorMessage := Some(message))
  }

  /** The contract results of a solution, with the exception that stopped their decoding. */
  function ContractsDecoded(task: Task, layout: Layout, ncols: nat, values: int -> real): Decoded
    requires |layout.contracts| == |task.contracts|
  {
    DecodeContracts(task, task.contracts, layout.contracts, SolutionMap(ncols, values))
  }

  /**
   * `getResult` and the catch clause around it: the found fields, then contracts, storages
   * and movable demands; an exception while decoding a contract turns the result into
   * SOLUTION_NOT_FOUND with the contract results decoded before it.
   */
  function FoundResult(task: Task, layout: Layout, builder: R.Result, gap: real, objective: real, elapsed: real,
                       ncols: nat, values: int -> real, numericalZero: real): (r: R.Result)
    requires Allocated(task, layout, 1, ncols + 1)
    ensures r.id == builder.id && r.optimizationStatus.Some? && r.errorMessage.Some?
    ensures r.optimizationStatus == Some(R.SolutionFound) <==> ContractsDecoded(task, layout, ncols, values).failure.None?
  {
    var found := builder.(optimizationStatus := Some(R.SolutionFound), errorMessage := Some(""),
                          relativeGap := gap, elapsedTime := elapsed, objectiveFunctionValue := objective);
    var d := ContractsDecoded(task, layout, ncols, values);
    var partial := found.(contractResults := found.contractResults + d.results);
    if d.failure.Some? then NotFound(partial, d.failure.value.message)
    else partial.(storageResults := found.storageResults + StorageResults(task, layout, ncols, values, numericalZero),
                  movableDemandResults := found.movableDemandResults + MovableResults(task, layout, ncols, values))
  }

  /**
   * The Result of `solve(task)` and whether the solver was freed, for a native engine and the
   * two configuration values. A failure while building the model leaves the solver unfreed;
   * so does an exception from the native solve, or one while decoding the solution.
   */
  predicate SolvedAs(task: Task, engine: NativeEngine, maxAllowedTimeOut: int, numericalZero: real,
                     r: R.Result, freed: bool)
  {
    var start := R.NewResult(task.id);
    match BuildRun(task, maxAllowedTimeOut, numericalZero)
    case Failure(f) =>
      !freed && r.errorMessage.Some? && r == NotFound(start, r.errorMessage.value) && Describes(f, r.errorMessage.value, engine)
    case Success(m) =>
      match engine.run(m)
      case Threw(message) => !freed && r == NotFound(start, message)
      case Finished(code, objective, values, elapsed) =>
        if StatusOfCode(code) == Optimal || StatusOfCode(code) == Suboptimal then
          BuiltAllocated(task, maxAllowedTimeOut, numericalZero);
          var layout := Built(task, maxAllowedTimeOut, numericalZero).1;
          && r == FoundResult(task, layout, start, m.gap, objective, elapsed, m.ncols, values, numericalZero)
          && freed == ContractsDecoded(task, layout, m.ncols, values).failure.None?
        else
          freed && r == NotFound(start, NotFoundMessage)
  }

  // ---------------------------------------------------------------------------------------
  // What a run of `solve` means

  function BuiltLayout(task: Task, maxAllowedTimeOut: int, numericalZero: real): Layout {
    Built(task, maxAllowedTimeOut, numericalZero).1
  }

  /** The native engine's answer on the model built for the task. */
  function NativeRunOf(task: Task, engine: NativeEngine, maxAllowedTimeOut: int, numericalZero: real): NativeRun
    requires BuildRun(task, maxAllowedTimeOut, numericalZero).Success?
  {
    engine.run(BuildRun(task, maxAllowedTimeOut, numericalZero).value)
  }

  /** The model solved has the task's time limit capped and its relative gap floored. */
  lemma SolvedSettings(task: Task, maxAllowedTimeOut: int, numericalZero: real)
    requires BuildRun(task, maxAllowedTimeOut, numericalZero).Success?
    ensures var m := BuildRun(task, maxAllowedTimeOut, numericalZero).value;
            && m.timeout == Wrappers.Min(task.timeoutSeconds, maxAllowedTimeOut)
            && m.timeout <= maxAllowedTimeOut
            && m.gap == MaxReal(numericalZero, task.relativeGap)
            && m.gap >= numericalZero && m.gap >= task.relativeGap
            && !m.maximize
  {
    var built := Built(task, maxAllowedTimeOut, numericalZero);
    assert built.0.timeout == Configured(task, maxAllowedTimeOut, numericalZero).timeout;
    assert built.0.gap == Configured(task, maxAllowedTimeOut, numericalZero).gap;
    ApplyAllKeeps(built.0, BuildCalls(task, built.1));
  }

  /**
   * Every run returns a result for the task's id with a status and a message; the solver is
   * freed only after a finished native solve, and a found solution comes with an empty message
   * and a freed solver.
   */
  lemma SolvedIdentifies(task: Task, engine: NativeEngine, maxAllowedTimeOut: int, numericalZero: real, r: R.Result, freed: bool)
    requires SolvedAs(task, engine, maxAllowedTimeOut, numericalZero, r, freed)
    ensures r.id == task.id && r.optimizationStatus.Some? && r.errorMessage.Some?
    ensures freed ==> BuildRun(task, maxAllowedTimeOut, numericalZero).Success?
                      && NativeRunOf(task, engine, maxAllowedTimeOut, numericalZero).Finished?
    ensures r.optimizationStatus == Some(R.SolutionFound) ==> freed && r.errorMessage == Some("")
  {
  }

  /**
   * A solution is found only when the model was built and the engine finished OPTIMAL or
   * SUBOPTIMAL; the result is then the decoding of that solution, and the solver freed.
   */
  lemma SolvedFound(task: Task, engine: NativeEngine, maxAllowedTimeOut: int, numericalZero: real, r: R.Result, freed: bool)
    requires SolvedAs(task, engine, maxAllowedTimeOut, numericalZero, r, freed)
    requires r.optimizationStatus == Some(R.SolutionFound)
    ensures BuildRun(task, maxAllowedTimeOut, numericalZero).Success?
    ensures var run := NativeRunOf(task, engine, maxAllowedTimeOut, numericalZero);
            && run.Finished?
            && (StatusOfCode(run.code) == Optimal || StatusOfCode(run.code) == Suboptimal)
            && freed
  {
  }

  /**
   * When the engine finishes OPTIMAL or SUBOPTIMAL, the result is `getResult`'s decoding of its
   * solution over the model's columns, with the model's (floored) relative gap, and the solver
   * is freed exactly when no contract's decoding raised an exception.
   */
  lemma SolvedFinished(task: Task, engine: NativeEngine, maxAllowedTimeOut: int, numericalZero: real, r: R.Result, freed: bool)
    requires SolvedAs(task, engine, maxAllowedTimeOut, numericalZero, r, freed)
    requires BuildRun(task, maxAllowedTimeOut, numericalZero).Success?
    requires NativeRunOf(task, engine, maxAllowedTimeOut, numericalZero).Finished?
    requires var code := NativeRunOf(task, engine, maxAllowedTimeOut, numericalZero).code;
             StatusOfCode(code) == Optimal || StatusOfCode(code) == Suboptimal
    ensures var m := BuildRun(task, maxAllowedTimeOut, numericalZero).value;
            var run := NativeRunOf(task, engine, maxAllowedTimeOut, numericalZero);
            var layout := BuiltLayout(task, maxAllowedTimeOut, numericalZero);
            && m.gap == MaxReal(numericalZero, task.relativeGap)
            && Allocated(task, layout, 1, m.ncols + 1)
            && r == FoundResult(task, layout, R.NewResult(task.id), m.gap, run.objectiveValue, run.elapsed,
                                m.ncols, run.values, numericalZero)
            && (freed <==> ContractsDecoded(task, layout, m.ncols, run.values).failure.None?)
  {
    SolvedSettings(task, maxAllowedTimeOut, numericalZero);
    BuiltAllocated(task, maxAllowedTimeOut, numericalZero);
  }

  /**
   * SOLUTION_NOT_FOUND has one of four causes: the set-up failed (the message describes how),
   * the native solve threw, the status was neither OPTIMAL nor SUBOPTIMAL, or a contract
   * could not be decoded.
   */
  lemma SolvedNotFound(task: Task, engine: NativeEngine, maxAllowedTimeOut: int, numericalZero: real, r: R.Result, freed: bool)
    requires SolvedAs(task, engine, maxAllowedTimeOut, numericalZero, r, freed)
    requires r.optimizationStatus == Some(R.SolutionNotFound)
    ensures || (BuildRun(task, maxAllowedTimeOut, numericalZero).Failure?
                && Describes(BuildRun(task, maxAllowedTimeOut, numericalZero).error, r.errorMessage.value, engine)
                && r == NotFound(R.NewResult(task.id), r.errorMessage.value))
            || (BuildRun(task, maxAllowedTimeOut, numericalZero).Success?
                && NativeRunOf(task, engine, maxAllowedTimeOut, numericalZero).Threw?
                && r == NotFound(R.NewResult(task.id), NativeRunOf(task, engine, maxAllowedTimeOut, numericalZero).message))
            || (BuildRun(task, maxAllowedTimeOut, numericalZero).Success?
                && NativeRunOf(task, engine, maxAllowedTimeOut, numericalZero).Finished?
                && StatusOfCode(NativeRunOf(task, engine, maxAllowedTimeOut, numericalZero).code) !in {Optimal, Suboptimal}
                && freed && r == NotFound(R.NewResult(task.id), NotFoundMessage))
            || (BuildRun(task, maxAllowedTimeOut, numericalZero).Success?
                && NativeRunOf(task, engine, maxAllowedTimeOut, numericalZero).Finished?
                && StatusOfCode(NativeRunOf(task, engine, maxAllowedTimeOut, numericalZero).code) in {Optimal, Suboptimal}
                && |BuiltLayout(task, maxAllowedTimeOut, numericalZero).contracts| == |task.contracts|
                && var d := ContractsDecoded(task, BuiltLayout(task, maxAllowedTimeOut, numericalZero),
                                             BuildRun(task, maxAllowedTimeOut, numericalZero).value.ncols,
                                             NativeRunOf(task, engine, maxAllowedTimeOut, numericalZero).values);
                   d.failure.Some? && !freed && r.errorMessage == Some(d.failure.value.message))
  {
    if BuildRun(task, maxAllowedTimeOut, numericalZero).Success? {
      BuiltAllocated(task, maxAllowedTimeOut, numericalZero);
    }
  }

  // ---------------------------------------------------------------------------------------
  // What `getResult` reads from a solution

  /**
   * A found result carries the engine's objective value and elapsed time, the relative gap,
   * and one decoded result per storage and movable demand, in the task's order.
   */
  lemma FoundContents(task: Task, layout: Layout, builder: R.Result, gap: real, objective: real, elapsed: real,
                      ncols: nat, values: int -> real, numericalZero: real)
    requires Allocated(task, layout, 1, ncols + 1) && builder == R.NewResult(builder.id)
    requires FoundResult(task, layout, builder, gap, objective, elapsed, ncols, values, numericalZero).optimizationStatus
             == Some(R.SolutionFound)
    ensures var r := FoundResult(task, layout, builder, gap, objective, elapsed, ncols, values, numericalZero);
            && r.errorMessage == Some("")
            && r.objectiveFunctionValue == objective && r.elapsedTime == elapsed && r.relativeGap == gap
            && r.storageResults == StorageResults(task, layout, ncols, values, numericalZero)
            && r.movableDemandResults == MovableResults(task, layout, ncols, values)
  {
  }

  /** A found result holds one decoded result per contract, in the task's order. */
  lemma FoundContracts(task: Task, layout: Layout, builder: R.Result, gap: real, objective: real, elapsed: real,
                       ncols: nat, values: int -> real, numericalZero: real)
    requires Allocated(task, layout, 1, ncols + 1) && builder == R.NewResult(builder.id)
    requires FoundResult(task, layout, builder, gap, objective, elapsed, ncols, values, numericalZero).optimizationStatus
             == Some(R.SolutionFound)
    ensures var cr := FoundResult(task, layout, builder, gap, objective, elapsed, ncols, values, numericalZero).contractResults;
            var sol := SolutionMap(ncols, values);
            && |cr| == |task.contracts|
            && forall i :: 0 <= i < |task.contracts| ==>
                 ContractOutcome(task, task.contracts[i], layout.contracts[i], sol) == Success(cr[i])
                 && cr[i].id == task.contracts[i].id
  {
    var d := ContractsDecoded(task, layout, ncols, values);
    assert d.failure.None?;
    assert FoundResult(task, layout, builder, gap, objective, elapsed, ncols, values, numericalZero).contractResults == d.results;
    DecodeContractsEach(task, task.contracts, layout.contracts, SolutionMap(ncols, values));
  }

  /**
   * A storage of a found result reports, per interval of the horizon, the values of its
   * charge, discharge and energy columns and the mode those values give.
   */
  lemma FoundStorage(task: Task, layout: Layout, builder: R.Result, gap: real, objective: real, elapsed: real,
                     ncols: nat, values: int -> real, numericalZero: real, s: nat)
    requires Allocated(task, layout, 1, ncols + 1) && builder == R.NewResult(builder.id)
    requires FoundResult(task, layout, builder, gap, objective, elapsed, ncols, values, numericalZero).optimizationStatus
             == Some(R.SolutionFound)
    requires s < |task.storages|
    ensures var rs := FoundResult(task, layout, builder, gap, objective, elapsed, ncols, values, numericalZero).storageResults;
            var x := layout.storages[s];
            var horizon := task.OptimizationHorizonLength();
            && s < |rs|
            && rs[s].id == task.storages[s].id
            && |rs[s].charge.values| == |rs[s].discharge.values| == |rs[s].energy.values| == |rs[s].storageMode.values| == horizon
            && forall t :: 0 <= t < horizon ==>
                 && rs[s].charge.values[t] == values(x.charge + t)
                 && rs[s].discharge.values[t] == values(x.discharge + t)
                 && rs[s].energy.values[t] == values(x.energy + t)
                 && rs[s].storageMode.values[t] == ModeOf(values(x.charge + t), values(x.discharge + t), numericalZero)
  {
    StorageResultOf(task, layout, ncols, values, numericalZero, s);
  }

  /**
   * A movable demand of a found result reports the start interval of the variant with the
   * lowest indicator column among those whose indicator is exactly 1 (the only such variant
   * when there is one), and -1 when no indicator is 1.
   */
  lemma FoundMovableDemand(task: Task, layout: Layout, builder: R.Result, gap: real, objective: real, elapsed: real,
                           ncols: nat, values: int -> real, numericalZero: real, d: nat)
    requires Allocated(task, layout, 1, ncols + 1) && builder == R.NewResult(builder.id)
    requires FoundResult(task, layout, builder, gap, objective, elapsed, ncols, values, numericalZero).optimizationStatus
             == Some(R.SolutionFound)
    requires d < |task.movableDemands|
    ensures var rs := FoundResult(task, layout, builder, gap, objective, elapsed, ncols, values, numericalZero).movableDemandResults;
            var vs := layout.variants[d];
            && d < |rs|
            && rs[d].id == task.movableDemands[d].id && rs[d].name == task.movableDemands[d].name
            && (forall j :: 0 <= j < |vs| && values(vs[j].variantIndicator) == 1.0
                            && (forall i :: 0 <= i < |vs| && values(vs[i].variantIndicator) == 1.0
                                  ==> vs[j].variantIndicator <= vs[i].variantIndicator)
                  ==> rs[d].startInterval == vs[j].startInterval)
            && ((exists j :: 0 <= j < |vs| && values(vs[j].variantIndicator) == 1.0)
                  ==> exists j :: 0 <= j < |vs| && values(vs[j].variantIndicator) == 1.0
                                  && (forall i :: 0 <= i < |vs| && values(vs[i].variantIndicator) == 1.0
                                        ==> vs[j].variantIndicator <= vs[i].variantIndicator)
                                  && rs[d].startInterval == vs[j].startInterval)
            && (forall j :: 0 <= j < |vs| && values(vs[j].variantIndicator) == 1.0
                            && (forall i :: 0 <= i < |vs| && i != j ==> values(vs[i].variantIndicator) != 1.0)
                  ==> rs[d].startInterval == vs[j].startInterval)
            && ((forall j :: 0 <= j < |vs| ==> values(vs[j].variantIndicator) != 1.0)
                  ==> rs[d].startInterval == -1)
  {
    LayoutIndicators(task, layout, ncols, d);
    MovableDecoded(task.movableDemands[d], layout.variants[d], SolutionMap(ncols, values), ncols);
  }

  /**
   * A solution whose contracts cannot all be decoded gives SOLUTION_NOT_FOUND with the failing
   * contract's exception message, keeping the found fields and the contract results decoded
   * before it, and no storage or movable demand results.
   */
  lemma FoundDecodeFailure(task: Task, layout: Layout, builder: R.Result, gap: real, objective: real, elapsed: real,
                           ncols: nat, values: int -> real, numericalZero: real)
    requires Allocated(task, layout, 1, ncols + 1) && builder == R.NewResult(builder.id)
    requires FoundResult(task, layout, builder, gap, objective, elapsed, ncols, values, numericalZero).optimizationStatus
             == Some(R.SolutionNotFound)
    ensures var r := FoundResult(task, layout, builder, gap, objective, elapsed, ncols, values, numericalZero);
            var sol := SolutionMap(ncols, values);
            var n := |r.contractResults|;
            && r.objectiveFunctionValue == objective && r.elapsedTime == elapsed && r.relativeGap == gap
            && r.storageResults == [] && r.movableDemandResults == []
            && n < |task.contracts|
            && ContractOutcome(task, task.contracts[n], layout.contracts[n], sol).Failure?
            && r.errorMessage == Some(ContractOutcome(task, task.contracts[n], layout.contracts[n], sol).error.message)
            && forall i :: 0 <= i < n ==> ContractOutcome(task, task.contracts[i], layout.contracts[i], sol) == Success(r.contractResults[i])
  {
    DecodeContractsFailure(task, task.contracts, layout.contracts, SolutionMap(ncols, values));
  }

  // ---------------------------------------------------------------------------------------
  // The four ways out of `solve`, one lemma each

  lemma SolvedOnBuildFailure(task: Task, engine: NativeEngine, maxAllowedTimeOut: int, numericalZero: real, message: string)
    requires BuildRun(task, maxAllowedTimeOut, numericalZero).Failure?
    requires Describes(BuildRun(task, maxAllowedTimeOut, numericalZero).error, message, engine)
    ensures SolvedAs(task, engine, maxAllowedTimeOut, numericalZero, NotFound(R.NewResult(task.id), message), false)
  {
  }

  lemma SolvedOnThrow(task: Task, engine: NativeEngine, maxAllowedTimeOut: int, numericalZero: real, message: string)
    requires BuildRun(task, maxAllowedTimeOut, numericalZero).Success?
    requires engine.run(BuildRun(task, maxAllowedTimeOut, numericalZero).value) == Threw(message)
    ensures SolvedAs(task, engine, maxAllowedTimeOut, numericalZero, NotFound(R.NewResult(task.id), message), false)
  {
  }

  lemma SolvedOnOtherStatus(task: Task, engine: NativeEngine, maxAllowedTimeOut: int, numericalZero: real)
    requires BuildRun(task, maxAllowedTimeOut, numericalZero).Success?
    requires var run := engine.run(BuildRun(task, maxAllowedTimeOut, numericalZero).value);
             run.Finished? && StatusOfCode(run.code) != Optimal && StatusOfCode(run.code) != Suboptimal
    ensures SolvedAs(task, engine, maxAllowedTimeOut, numericalZero, NotFound(R.NewResult(task.id), NotFoundMessage), true)
  {
  }

  lemma SolvedOnSolution(task: Task, engine: NativeEngine, maxAllowedTimeOut: int, numericalZero: real, r: R.Result, freed: bool)
    requires BuildRun(task, maxAllowedTimeOut, numericalZero).Success?
    requires var run := engine.run(BuildRun(task, maxAllowedTimeOut, numericalZero).value);
             run.Finished? && (StatusOfCode(run.code) == Optimal || StatusOfCode(run.code) == Suboptimal)
    requires var m := BuildRun(task, maxAllowedTimeOut, numericalZero).value;
             var run := engine.run(m);
             var layout := BuiltLayout(task, maxAllowedTimeOut, numericalZero);
             && Allocated(task, layout, 1, m.ncols + 1)
             && r == FoundResult(task, layout, R.NewResult(task.id), m.gap, run.objectiveValue, run.elapsed, m.ncols, run.values, numericalZero)
             && freed == ContractsDecoded(task, layout, m.ncols, run.values).failure.None?
    ensures SolvedAs(task, engine, maxAllowedTimeOut, numericalZero, r, freed)
  {
  }

  /**
   * The builder after the contracts' loop: the results decoded, in order, appended to it; the
   * outcome fails exactly when a contract raised an exception, with that exception's message.
   */
  predicate ContractsCollected(builder: R.Result, d: Decoded, b: R.Result, o: Outcome<string>) {
    && b == builder.(contractResults := builder.contractResults + d.results)
    && (o.Pass? <==> d.failure.None?)
    && (o.Fail? ==> o.error == d.failure.value.message)
  }

  class OptimizerImpl {
    /** `optimizer.maxAllowedTimeOut`: the cap on a task's time limit. */
    const maxAllowedTimeOut: int
    /** `optimizer.numericalZero`: the floor of the relative gap and the threshold of a storage mode. */
    const numericalZero: real

    constructor (maxAllowedTimeOut: int, numericalZero: real)
      ensures this.maxAllowedTimeOut == maxAllowedTimeOut && this.numericalZero == numericalZero
    {
      this.maxAllowedTimeOut := maxAllowedTimeOut;
      this.numericalZero := numericalZero;
    }

    /** `solve(task)`, the native engine being the one the new solver wraps. */
    method Solve(task: Task, engine: NativeEngine) returns (result: R.Result, ghost freed: bool)
      ensures SolvedAs(task, engine, maxAllowedTimeOut, numericalZero, result, freed)
    {
      result := R.NewResult(task.id);
      var solver, layout, o := BuildModel(task, engine);
      if o.Fail? {
        result := NotFound(result, o.error);
        freed := false;
        SolvedOnBuildFailure(task, engine, maxAllowedTimeOut, numericalZero, o.error);
        return;
      }
      var solutionStatus := solver.Solve();
      if solutionStatus.Failure? {
        result := NotFound(result, solutionStatus.error);
        freed := false;
        SolvedOnThrow(task, engine, maxAllowedTimeOut, numericalZero, solutionStatus.error);
        return;
      }
      if solutionStatus.value == Optimal || solutionStatus.value == Suboptimal {
        BuiltAllocated(task, maxAllowedTimeOut, numericalZero);
        var decoded;
        result, decoded := GetResult(task, solver, result, layout);
        if decoded.Fail? {
          result := NotFound(result, decoded.error);
          freed := false;
          SolvedOnSolution(task, engine, maxAllowedTimeOut, numericalZero, result, freed);
          return;
        }
        SolvedOnSolution(task, engine, maxAllowedTimeOut, numericalZero, result, true);
      } else {
        result := NotFound(result, NotFoundMessage);
        SolvedOnOtherStatus(task, engine, maxAllowedTimeOut, numericalZero);
      }
      solver.Free();
      freed := true;
    }

    /**
     * The part of `solve` before the native call: a new solver with the task's time limit and
     * relative gap, the columns of the three `assign*Variables` phases, then `setUpModel`.
     */
    method BuildModel(task: Task, engine: NativeEngine) returns (solver: LpSolveSolver, layout: Layout, o: Outcome<string>)
      ensures fresh(solver) && solver.engine == engine && !solver.freed && solver.lastRun == None
      ensures layout == BuiltLayout(task, maxAllowedTimeOut, numericalZero)
      ensures Performed(Built(task, maxAllowedTimeOut, numericalZero).0, BuildCalls(task, layout), solver.Snapshot(), o, engine)
    {
      solver := new LpSolveSolver(engine);
      solver.SetTimeOut(Wrappers.Min(task.timeoutSeconds, maxAllowedTimeOut));
      solver.SetRelativeGap(MaxReal(numericalZero, task.relativeGap));
      assert solver.Snapshot() == Configured(task, maxAllowedTimeOut, numericalZero);
      layout := AssignVariables(task, solver);
      assert (solver.Snapshot(), layout) == Built(task, maxAllowedTimeOut, numericalZero);
      o := SetUpModel(task, solver, layout);
    }

    /**
     * `getResult`: the found fields and the three result lists. On an exception, the builder
     * as it stood when the exception was raised, and the exception's message.
     */
    method GetResult(task: Task, solver: LpSolveSolver, builder: R.Result, layout: Layout)
      returns (b: R.Result, o: Outcome<string>)
      requires !solver.freed && solver.lastRun.Some? && solver.lastRun.value.Finished?
      requires Allocated(task, layout, 1, solver.ncols + 1)
      ensures var run := solver.lastRun.value;
              var r := FoundResult(task, layout, builder, solver.gap, run.objectiveValue, run.elapsed,
                                   solver.ncols, run.values, numericalZero);
              && (o.Pass? <==> ContractsDecoded(task, layout, solver.ncols, run.values).failure.None?)
              && (o.Pass? ==> b == r)
              && (o.Fail? ==> NotFound(b, o.error) == r)
    {
      var relativeGap := solver.GetSolutionRelativeGap();
      var elapsedTime := solver.GetSolutionElapsedTime();
      var objectiveValue := solver.GetObjectiveValue();
      b := builder.(optimizationStatus := Some(R.SolutionFound), errorMessage := Some(""),
                    relativeGap := relativeGap, elapsedTime := elapsedTime, objectiveFunctionValue := objectiveValue);
      var variableResults := solver.GetSolution();
      b, o := GetContractsResults(task, layout, b, variableResults);
      if o.Fail? {
        return;
      }
      b := GetStoragesResults(task, layout, b, solver.ncols, solver.lastRun.value.values, variableResults);
      b := GetMovableDemandResults(task, layout, b, solver.ncols, solver.lastRun.value.values, variableResults);
    }

    /** `getContractsResults`: one result per contract, appended in order, until an exception. */
    method GetContractsResults(task: Task, layout: Layout, builder: R.Result, variableResults: map<int, real>)
      returns (b: R.Result, o: Outcome<string>)
      requires |layout.contracts| == |task.contracts|
      ensures ContractsCollected(builder, DecodeContracts(task, task.contracts, layout.contracts, variableResults), b, o)
    {
      var cs, xs := task.contracts, layout.contracts;
      b := builder;
      ghost var done: seq<R.ContractResult> := [];
      var i := 0;
      while i < |cs|
        invariant 0 <= i <= |cs| && |done| == i
        invariant forall j :: 0 <= j < i ==> ContractOutcome(task, cs[j], xs[j], variableResults) == Success(done[j])
        invariant b == builder.(contractResults := builder.contractResults + done)
      {
        var r := DecodeContract(task, cs[i], xs[i], variableResults);
        if r.Failure? {
          DecodeContractsOf(task, cs, xs, variableResults, done, Some(r.error));
          o := Fail(r.error.message);
          return;
        }
        b := b.(contractResults := b.contractResults + [r.value]);
        done := done + [r.value];
        i := i + 1;
      }
      DecodeContractsOf(task, cs, xs, variableResults, done, None);
      o := Pass;
    }

    /** `getStoragesResults`: one result per storage, appended in order. */
    method GetStoragesResults(task: Task, layout: Layout, builder: R.Result, ncols: nat, ghost values: int -> real,
                              variableResults: map<int, real>) returns (b: R.Result)
      requires Allocated(task, layout, 1, ncols + 1)
      requires variableResults == SolutionMap(ncols, values)
      ensures b == builder.(storageResults := builder.storageResults + StorageResults(task, layout, ncols, values, numericalZero))
    {
      ghost var all := StorageResults(task, layout, ncols, values, numericalZero);
      StorageBlocksInSolution(task, layout, ncols, values);
      var horizon := task.OptimizationHorizonLength();
      b := builder;
      var i := 0;
      while i < |task.storages|
        invariant 0 <= i <= |task.storages|
        invariant b == builder.(storageResults := builder.storageResults + all[..i])
      {
        var r := StorageOutcome(task.storages[i], layout.storages[i], horizon, variableResults, numericalZero);
        assert all[..i + 1] == all[..i] + [r];
        b := b.(storageResults := b.storageResults + [r]);
        i := i + 1;
      }
      assert all[..i] == all;
    }

    /** `getMovableDemandResults`: one result per movable demand, appended in order. */
    method GetMovableDemandResults(task: Task, layout: Layout, builder: R.Result, ncols: nat, ghost values: int -> real,
                                   variableResults: map<int, real>) returns (b: R.Result)
      requires Shaped(task, layout)
      requires variableResults == SolutionMap(ncols, values)
      ensures b == builder.(movableDemandResults := builder.movableDemandResults + MovableResults(task, layout, ncols, values))
    {
      ghost var all := MovableResults(task, layout, ncols, values);
      b := builder;
      var i := 0;
      while i < |task.movableDemands|
        invariant 0 <= i <= |task.movableDemands|
        invariant b == builder.(movableDemandResults := builder.movableDemandResults + all[..i])
      {
        var r := MovableOutcome(task.movableDemands[i], layout.variants[i], variableResults, ncols);
        assert all[..i + 1] == all[..i] + [r];
        b := b.(movableDemandResults := b.movableDemandResults + [r]);
        i := i + 1;
      }
      assert all[..i] == all;
    }
  }
}
