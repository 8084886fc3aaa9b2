/**
 * The model-building half of service/OptimizerImpl as the imperative code it is: the
 * `assign*Variables` loops that allocate columns on the solver, and the `setUp*` loops that
 * add its rows and bounds. Each method is proved to leave the solver as the pure layer
 * (`Layouts.Allocate*`, `ModelCalls`) says, or to fail as that sequence of calls fails.
 */
module ModelBuilder {
  import opened Wrappers
  import opened Seqs
  import opened Exceptions
  import opened SolverModel
  import opened Profiles
  import opened SumConstraints
  import opened Contracts
  import opened Storages
  import opened MovableDemands
  import opened Tasks
  import opened Layouts
  import opened ModelCalls
  import opened LpSolve

  // ---------------------------------------------------------------------------------------
  // Chaining runs of calls

  /** Run a, and b only when a passed: the outcome is a's failure or b's outcome. */
  lemma PerformedSeq(m0: Model, a: seq<Call>, m1: Model, o1: Outcome<string>, b: seq<Call>, m2: Model, o2: Outcome<string>, engine: NativeEngine)
    requires Performed(m0, a, m1, o1, engine)
    requires o1.Pass? ==> Performed(m1, b, m2, o2, engine)
    requires o1.Fail? ==> o2 == o1
    ensures Performed(m0, a + b, m2, o2, engine)
  {
    if o1.Fail? {
      PerformedFailed(m0, a, m1, b, m2, o1.error, engine);
    } else {
      PerformedThen(m0, a, m1, b, m2, o2, engine);
    }
  }

  /** Two calls in a row; the second runs only when the first passed. */
  lemma PerformedPair(m0: Model, c1: Call, m1: Model, o1: Outcome<string>, c2: Call, m2: Model, o2: Outcome<string>, engine: NativeEngine)
    requires Performed(m0, [c1], m1, o1, engine)
    requires o1.Pass? ==> Performed(m1, [c2], m2, o2, engine)
    requires o1.Fail? ==> o2 == o1
    ensures Performed(m0, [c1, c2], m2, o2, engine)
  {
    PerformedSeq(m0, [c1], m1, o1, [c2], m2, o2, engine);
    assert [c1] + [c2] == [c1, c2];
  }

  /** One more call of a loop over `calls`; a failure ends the whole loop's run. */
  lemma PerformedStep(m0: Model, calls: seq<Call>, i: nat, m1: Model, m2: Model, o: Outcome<string>, engine: NativeEngine)
    requires i < |calls|
    requires Performed(m0, calls[..i], m1, Pass, engine)
    requires Performed(m1, [calls[i]], m2, o, engine)
    ensures Performed(m0, calls[..i + 1], m2, o, engine)
    ensures o.Fail? ==> Performed(m0, calls, m2, o, engine)
  {
    assert calls[..i + 1] == calls[..i] + [calls[i]];
    PerformedThen(m0, calls[..i], m1, [calls[i]], m2, o, engine);
    if o.Fail? {
      PerformedFailedPrefix(m0, calls[..i + 1], m2, calls, m2, o.error, engine);
    }
  }

  /** One more iteration of an outer loop whose i-th pass makes the calls groups[i]. */
  lemma PerformedGroup(m0: Model, groups: seq<seq<Call>>, i: nat, m1: Model, m2: Model, o: Outcome<string>, engine: NativeEngine)
    requires i < |groups|
    requires Performed(m0, Concat(groups[..i]), m1, Pass, engine)
    requires Performed(m1, groups[i], m2, o, engine)
    ensures Performed(m0, Concat(groups[..i + 1]), m2, o, engine)
    ensures o.Fail? ==> Performed(m0, Concat(groups), m2, o, engine)
  {
    ConcatSnoc(groups, i);
    PerformedThen(m0, Concat(groups[..i]), m1, groups[i], m2, o, engine);
    if o.Fail? {
      ConcatPrefix(groups, i + 1);
      PerformedFailedPrefix(m0, Concat(groups[..i + 1]), m2, Concat(groups), m2, o.error, engine);
    }
  }

  /** A loop that has been through all of its calls. */
  lemma PerformedAll(m0: Model, calls: seq<Call>, m1: Model, engine: NativeEngine)
    requires Performed(m0, calls[..|calls|], m1, Pass, engine)
    ensures Performed(m0, calls, m1, Pass, engine)
  {
    assert calls[..|calls|] == calls;
  }

  lemma PerformedAllGroups(m0: Model, groups: seq<seq<Call>>, m1: Model, engine: NativeEngine)
    requires Performed(m0, Concat(groups[..|groups|]), m1, Pass, engine)
    ensures Performed(m0, Concat(groups), m1, Pass, engine)
  {
    assert groups[..|groups|] == groups;
  }

  lemma PerformedStart(m0: Model, calls: seq<Call>, engine: NativeEngine)
    ensures Performed(m0, calls[..0], m0, Pass, engine)
  {
    assert calls[..0] == [];
    PerformedNothing(m0, engine);
  }

  lemma PerformedStartGroups(m0: Model, groups: seq<seq<Call>>, engine: NativeEngine)
    ensures Performed(m0, Concat(groups[..0]), m0, Pass, engine)
  {
    assert groups[..0] == [];
    PerformedNothing(m0, engine);
  }

  /** The exception a `Throw` call stands for, raised before any solver call. */
  lemma PerformedThrow(m0: Model, e: Exception, m1: Model, engine: NativeEngine)
    ensures Performed(m0, [Throw(e)], m1, Fail(e.message), engine)
  {
    PerformedOne(m0, Throw(e), m1, Fail(e.message), engine);
  }

  // ---------------------------------------------------------------------------------------
  // Folds of `put`

  lemma PutEntriesStep(m: map<int, real>, es: seq<Option<(int, real)>>, i: nat)
    requires i < |es|
    ensures PutEntries(m, es[..i + 1]) == match es[i]
                                          case None => PutEntries(m, es[..i])
                                          case Some(e) => PutEntries(m, es[..i])[e.0 := e.1]
  {
    assert es[..i + 1][..i] == es[..i];
  }

  lemma PutEntriesWhole(m: map<int, real>, es: seq<Option<(int, real)>>)
    ensures PutEntries(m, es[..|es|]) == PutEntries(m, es)
  {
    assert es[..|es|] == es;
  }

  /** Two runs of puts in a row are one run over both. */
  lemma {:induction false} PutEntriesAppend(m: map<int, real>, a: seq<Option<(int, real)>>, b: seq<Option<(int, real)>>)
    ensures PutEntries(m, a + b) == PutEntries(PutEntries(m, a), b)
    decreases |b|
  {
    if b == [] {
      assert a + b == a;
    } else {
      assert (a + b)[..|a + b| - 1] == a + b[..|b| - 1];
      PutEntriesAppend(m, a, b[..|b| - 1]);
    }
  }

  // ---------------------------------------------------------------------------------------
  // assign*Variables

  /** One more contract of `AllocateContracts`. */
  lemma AllocateContractsStep(m: Model, cs: seq<Contract>, horizon: int, i: nat, r1: (Model, seq<ContractIndexes>))
    requires i < |cs| && r1 == AllocateContracts(m, cs[..i], horizon)
    ensures var length := ContractColumns(cs[i], horizon);
            var r2 := AddColumns(r1.0, length, false);
            AllocateContracts(m, cs[..i + 1], horizon) == (r2.0, r1.1 + [ContractIndexes(r2.1, length)])
  {
    assert cs[..i + 1][..i] == cs[..i];
  }

  /** `assignContractsVariables`: one power block per contract, clipped to the horizon. */
  method AssignContractsVariables(task: Task, solver: LpSolveSolver) returns (indexes: seq<ContractIndexes>)
    requires !solver.freed
    modifies solver
    ensures (solver.Snapshot(), indexes) == AllocateContracts(old(solver.Snapshot()), task.contracts, task.OptimizationHorizonLength())
    ensures solver.lastRun == old(solver.lastRun) && !solver.freed
  {
    ghost var m0 := solver.Snapshot();
    var horizon := task.OptimizationHorizonLength();
    indexes := [];
    var i := 0;
    while i < |task.contracts|
      invariant 0 <= i <= |task.contracts|
      invariant (solver.Snapshot(), indexes) == AllocateContracts(m0, task.contracts[..i], horizon)
      invariant solver.lastRun == old(solver.lastRun) && !solver.freed
    {
      AllocateContractsStep(m0, task.contracts, horizon, i, (solver.Snapshot(), indexes));
      var contract := task.contracts[i];
      var contractLength := Wrappers.Min(contract.ContractLength(), horizon - contract.StartInterval());
      var first := solver.AddVariables(contractLength);
      indexes := indexes + [ContractIndexes(first, contractLength)];
      i := i + 1;
    }
    assert task.contracts[..i] == task.contracts;
  }

  /** The body of the `assignStoragesVariables` loop: the four blocks of one storage. */
  method AddStorageColumns(taskLength: nat, solver: LpSolveSolver) returns (x: StorageIndexes)
    requires !solver.freed
    modifies solver
    ensures (solver.Snapshot(), x) == AddStorage(old(solver.Snapshot()), taskLength)
    ensures solver.lastRun == old(solver.lastRun) && !solver.freed
  {
    var charge := solver.AddVariables(taskLength);
    var discharge := solver.AddVariables(taskLength);
    var chargeIndicator := solver.AddBinaryVariables(taskLength);
    var energy := solver.AddVariables(taskLength);
    x := StorageIndexes(charge, discharge, chargeIndicator, energy);
  }

  /** One more storage of `AllocateStorages`. */
  lemma AllocateStoragesStep(m: Model, ss: seq<Storage>, horizon: nat, i: nat, r1: (Model, seq<StorageIndexes>))
    requires i < |ss| && r1 == AllocateStorages(m, ss[..i], horizon)
    ensures AllocateStorages(m, ss[..i + 1], horizon) == (AddStorage(r1.0, horizon).0, r1.1 + [AddStorage(r1.0, horizon).1])
  {
    assert ss[..i + 1][..i] == ss[..i];
  }

  /** `assignStoragesVariables`: charge, discharge, binary charge indicator and energy blocks per storage. */
  method AssignStoragesVariables(task: Task, solver: LpSolveSolver) returns (indexes: seq<StorageIndexes>)
    requires !solver.freed
    modifies solver
    ensures (solver.Snapshot(), indexes) == AllocateStorages(old(solver.Snapshot()), task.storages, task.OptimizationHorizonLength())
    ensures solver.lastRun == old(solver.lastRun) && !solver.freed
  {
    ghost var m0 := solver.Snapshot();
    var taskLength := task.intervals.Length();
    indexes := [];
    var i := 0;
    while i < |task.storages|
      invariant 0 <= i <= |task.storages|
      invariant (solver.Snapshot(), indexes) == AllocateStorages(m0, task.storages[..i], taskLength)
      invariant solver.lastRun == old(solver.lastRun) && !solver.freed
    {
      AllocateStoragesStep(m0, task.storages, taskLength, i, (solver.Snapshot(), indexes));
      var x := AddStorageColumns(taskLength, solver);
      indexes := indexes + [x];
      i := i + 1;
    }
    assert task.storages[..i] == task.storages;
  }

  /** The body of the inner `assignMovableDemandVariables` loop: a power block, cut at the end of
      the horizon, then one binary indicator column. */
  method AddVariantColumns(startInterval: int, demandLength: nat, horizon: int, solver: LpSolveSolver) returns (x: VariantIndexes)
    requires !solver.freed
    modifies solver
    ensures (solver.Snapshot(), x) == AddVariant(old(solver.Snapshot()), startInterval, demandLength, horizon)
    ensures solver.lastRun == old(solver.lastRun) && !solver.freed
  {
    var adjustedLength := Wrappers.Min(demandLength, horizon - startInterval);
    var firstVariable := solver.AddVariables(adjustedLength);
    var indicator := solver.AddBinaryVariables(1);
    x := VariantIndexes(startInterval, indicator, firstVariable, adjustedLength);
  }

  /** One more start of `AllocateVariants`. */
  lemma AllocateVariantsStep(m: Model, starts: seq<int>, profileLength: nat, horizon: int, j: nat, r1: (Model, seq<VariantIndexes>))
    requires j < |starts| && r1 == AllocateVariants(m, starts[..j], profileLength, horizon)
    ensures var r2 := AddVariant(r1.0, starts[j], profileLength, horizon);
            AllocateVariants(m, starts[..j + 1], profileLength, horizon) == (r2.0, r1.1 + [r2.1])
  {
    assert starts[..j + 1][..j] == starts[..j];
  }

  /** The inner loop of `assignMovableDemandVariables`: one variant per start interval. */
  method AssignVariants(demand: MovableDemand, horizon: int, solver: LpSolveSolver) returns (variants: seq<VariantIndexes>)
    requires !solver.freed
    modifies solver
    ensures (solver.Snapshot(), variants) == AllocateVariants(old(solver.Snapshot()), demand.startIntervals, |demand.profile|, horizon)
    ensures solver.lastRun == old(solver.lastRun) && !solver.freed
  {
    ghost var m0 := solver.Snapshot();
    var demandLength := |demand.profile|;
    var starts := demand.startIntervals;
    variants := [];
    var j := 0;
    while j < |starts|
      invariant 0 <= j <= |starts|
      invariant (solver.Snapshot(), variants) == AllocateVariants(m0, starts[..j], demandLength, horizon)
      invariant solver.lastRun == old(solver.lastRun) && !solver.freed
    {
      AllocateVariantsStep(m0, starts, demandLength, horizon, j, (solver.Snapshot(), variants));
      var x := AddVariantColumns(starts[j], demandLength, horizon, solver);
      variants := variants + [x];
      j := j + 1;
    }
    assert starts[..j] == starts;
  }

  /** One more demand of `AllocateMovables`. */
  lemma AllocateMovablesStep(m: Model, ds: seq<MovableDemand>, horizon: int, k: nat, r1: (Model, seq<seq<VariantIndexes>>))
    requires k < |ds| && r1 == AllocateMovables(m, ds[..k], horizon)
    ensures var r2 := AllocateVariants(r1.0, ds[k].startIntervals, |ds[k].profile|, horizon);
            AllocateMovables(m, ds[..k + 1], horizon) == (r2.0, r1.1 + [r2.1])
  {
    assert ds[..k + 1][..k] == ds[..k];
  }

  /** `assignMovableDemandVariables`. */
  method AssignMovableDemandVariables(task: Task, solver: LpSolveSolver) returns (variants: seq<seq<VariantIndexes>>)
    requires !solver.freed
    modifies solver
    ensures (solver.Snapshot(), variants) == AllocateMovables(old(solver.Snapshot()), task.movableDemands, task.OptimizationHorizonLength())
    ensures solver.lastRun == old(solver.lastRun) && !solver.freed
  {
    ghost var m0 := solver.Snapshot();
    var horizon := task.OptimizationHorizonLength();
    variants := [];
    var k := 0;
    while k < |task.movableDemands|
      invariant 0 <= k <= |task.movableDemands|
      invariant (solver.Snapshot(), variants) == AllocateMovables(m0, task.movableDemands[..k], horizon)
      invariant solver.lastRun == old(solver.lastRun) && !solver.freed
    {
      AllocateMovablesStep(m0, task.movableDemands, horizon, k, (solver.Snapshot(), variants));
      var vs := AssignVariants(task.movableDemands[k], horizon, solver);
      variants := variants + [vs];
      k := k + 1;
    }
    assert task.movableDemands[..k] == task.movableDemands;
  }

  /** The three allocation phases of `solve`. */
  method AssignVariables(task: Task, solver: LpSolveSolver) returns (layout: Layout)
    requires !solver.freed
    modifies solver
    ensures (solver.Snapshot(), layout) == Allocate(old(solver.Snapshot()), task)
    ensures solver.lastRun == old(solver.lastRun) && !solver.freed
  {
    var contracts := AssignContractsVariables(task, solver);
    var storages := AssignStoragesVariables(task, solver);
    var variants := AssignMovableDemandVariables(task, solver);
    layout := Layout(contracts, storages, variants);
  }

  // ---------------------------------------------------------------------------------------
  // setUpPowerBalance

  /** The contract part of the balance weights: `toMap` over the contracts active at the interval. */
  method PutContractWeights(task: Task, layout: Layout, interval: int) returns (weights: map<int, real>)
    requires Shaped(task, layout)
    ensures weights == PutEntries(map[], ContractBalanceEntries(task, layout, interval))
  {
    ghost var entries := ContractBalanceEntries(task, layout, interval);
    weights := map[];
    var i := 0;
    while i < |task.contracts|
      invariant 0 <= i <= |task.contracts|
      invariant weights == PutEntries(map[], entries[..i])
    {
      var contract := task.contracts[i];
      PutEntriesStep(map[], entries, i);
      if contract.IsActiveAt(interval) {
        weights := weights[layout.contracts[i].power + interval - contract.StartInterval() :=
                           if contract.contractDirection == Purchase then 1.0 else -1.0];
      }
      i := i + 1;
    }
    PutEntriesWhole(map[], entries);
  }

  /** `putAll` of the storages' charge weights, -1 each, or (discharge) their discharge weights, +1 each. */
  method PutStorageWeights(layout: Layout, interval: int, discharge: bool, base: map<int, real>) returns (weights: map<int, real>)
    ensures weights == PutEntries(base, if discharge then DischargeBalanceEntries(layout, interval) else ChargeBalanceEntries(layout, interval))
  {
    ghost var entries := if discharge then DischargeBalanceEntries(layout, interval) else ChargeBalanceEntries(layout, interval);
    weights := base;
    var s := 0;
    while s < |layout.storages|
      invariant 0 <= s <= |layout.storages|
      invariant weights == PutEntries(base, entries[..s])
    {
      PutEntriesStep(base, entries, s);
      if discharge {
        weights := weights[layout.storages[s].discharge + interval := 1.0];
      } else {
        weights := weights[layout.storages[s].charge + interval := -1.0];
      }
      s := s + 1;
    }
    PutEntriesWhole(base, entries);
  }

  /** The variants of one movable demand covering the interval, -1 each. */
  method PutVariantWeights(variants: seq<VariantIndexes>, interval: int, base: map<int, real>) returns (weights: map<int, real>)
    ensures weights == PutEntries(base, VariantBalanceEntries(variants, interval))
  {
    ghost var entries := VariantBalanceEntries(variants, interval);
    weights := base;
    var j := 0;
    while j < |variants|
      invariant 0 <= j <= |variants|
      invariant weights == PutEntries(base, entries[..j])
    {
      var data := variants[j];
      PutEntriesStep(base, entries, j);
      if interval >= data.startInterval && interval < data.startInterval + data.length {
        weights := weights[data.power + interval - data.startInterval := -1.0];
      }
      j := j + 1;
    }
    PutEntriesWhole(base, entries);
  }

  /** The movable demands' part, demand by demand. */
  method PutMovableWeights(layout: Layout, interval: int, base: map<int, real>) returns (weights: map<int, real>)
    ensures weights == PutEntries(base, MovableBalanceEntries(layout, interval))
  {
    ghost var groups := seq(|layout.variants|, d requires 0 <= d < |layout.variants| => VariantBalanceEntries(layout.variants[d], interval));
    weights := base;
    var d := 0;
    while d < |layout.variants|
      invariant 0 <= d <= |layout.variants|
      invariant weights == PutEntries(base, Concat(groups[..d]))
    {
      weights := PutVariantWeights(layout.variants[d], interval, weights);
      ConcatSnoc(groups, d);
      PutEntriesAppend(base, Concat(groups[..d]), groups[d]);
      d := d + 1;
    }
    assert groups[..d] == groups;
  }

  /** The weights of the balance row of one interval, put part by part as the source does. */
  method BalanceWeightsAt(task: Task, layout: Layout, interval: int) returns (balanceWeights: map<int, real>)
    requires Shaped(task, layout)
    ensures balanceWeights == BalanceWeights(task, layout, interval)
  {
    var contractEntries := ContractBalanceEntries(task, layout, interval);
    var chargeEntries := ChargeBalanceEntries(layout, interval);
    var dischargeEntries := DischargeBalanceEntries(layout, interval);
    balanceWeights := PutContractWeights(task, layout, interval);
    balanceWeights := PutStorageWeights(layout, interval, false, balanceWeights);
    balanceWeights := PutStorageWeights(layout, interval, true, balanceWeights);
    balanceWeights := PutMovableWeights(layout, interval, balanceWeights);
    PutEntriesAppend(map[], contractEntries, chargeEntries);
    PutEntriesAppend(map[], contractEntries + chargeEntries, dischargeEntries);
    PutEntriesAppend(map[], contractEntries + chargeEntries + dischargeEntries, MovableBalanceEntries(layout, interval));
  }

  /** `setUpPowerBalance`: one equality per interval, in interval order. */
  method SetUpPowerBalance(task: Task, solver: LpSolveSolver, layout: Layout) returns (o: Outcome<string>)
    requires Shaped(task, layout) && !solver.freed
    modifies solver
    ensures Performed(old(solver.Snapshot()), BalanceCalls(task, layout), solver.Snapshot(), o, solver.engine)
    ensures solver.lastRun == old(solver.lastRun) && !solver.freed
  {
    ghost var m0 := solver.Snapshot();
    ghost var calls := BalanceCalls(task, layout);
    var horizon := task.OptimizationHorizonLength();
    var powerBalance: seq<real> := [];
    var t := 0;
    while t < horizon
      invariant 0 <= t <= horizon && |powerBalance| == t
      invariant forall j :: 0 <= j < t ==> powerBalance[j] == BalanceRhs(task, j)
    {
      powerBalance := powerBalance + [-1.0 * task.production.profile.ValueForInterval(t).GetOr(0.0)
                                      + task.demand.profile.ValueForInterval(t).GetOr(0.0)];
      t := t + 1;
    }
    var rhs := FromValues(powerBalance);

    PerformedStart(m0, calls, solver.engine);
    var interval := 0;
    while interval < horizon
      invariant 0 <= interval <= horizon
      invariant Performed(m0, calls[..interval], solver.Snapshot(), Pass, solver.engine)
      invariant solver.lastRun == old(solver.lastRun) && !solver.freed
    {
      var balanceWeights := BalanceWeightsAt(task, layout, interval);
      ghost var before := solver.Snapshot();
      o := solver.AddEqWeightedSumConstraint(balanceWeights, rhs.ValueForInterval(interval).value);
      PerformedStep(m0, calls, interval, before, solver.Snapshot(), o, solver.engine);
      if o.Fail? {
        return;
      }
      interval := interval + 1;
    }
    PerformedAll(m0, calls, solver.Snapshot(), solver.engine);
    o := Pass;
  }

  // ---------------------------------------------------------------------------------------
  // setUpContractsConstraints

  /** `setUpContractPowerConstraints`: the bounds of the intervals of the horizon, moved onto the power block. */
  method SetUpContractPowerConstraints(solver: LpSolveSolver, horizon: int, contract: Contract, x: ContractIndexes) returns (o: Outcome<string>)
    requires !solver.freed
    modifies solver
    ensures Performed(old(solver.Snapshot()), ContractPowerCalls(contract, x, horizon), solver.Snapshot(), o, solver.engine)
    ensures solver.lastRun == old(solver.lastRun) && !solver.freed
  {
    ghost var m0 := solver.Snapshot();
    ghost var lowerCalls := if contract.minPowerConstraints.Some? then [LowerBounds(PowerBounds(contract.minPowerConstraints.value, x.power, horizon))] else [];
    ghost var upperCalls := if contract.maxPowerConstraints.Some? then [UpperBounds(PowerBounds(contract.maxPowerConstraints.value, x.power, horizon))] else [];
    o := Pass;
    if contract.minPowerConstraints.Some? {
      var minPower := contract.minPowerConstraints.value;
      o := solver.AddLowerBounds(PowerBounds(minPower, x.power, horizon));
    } else {
      PerformedNothing(m0, solver.engine);
    }
    ghost var m1 := solver.Snapshot();
    ghost var o1 := o;
    if o.Pass? {
      if contract.maxPowerConstraints.Some? {
        var maxPower := contract.maxPowerConstraints.value;
        o := solver.AddUpperBounds(PowerBounds(maxPower, x.power, horizon));
      } else {
        PerformedNothing(m1, solver.engine);
      }
    }
    PerformedSeq(m0, lowerCalls, m1, o1, upperCalls, solver.Snapshot(), o, solver.engine);
  }

  /** The loop over one list of energy sums: a `Ge` (minimum) or `Le` (maximum) row each. */
  method SetUpEnergySums(solver: LpSolveSolver, constraints: seq<ValidSumConstraint>, powerStartIndex: int,
                         taskIntervals: Profile<real>, horizon: int, sense: Sense) returns (o: Outcome<string>)
    requires !solver.freed && sense != Eq
    modifies solver
    ensures Performed(old(solver.Snapshot()), EnergyCalls(constraints, powerStartIndex, taskIntervals, horizon, sense), solver.Snapshot(), o, solver.engine)
    ensures solver.lastRun == old(solver.lastRun) && !solver.freed
  {
    ghost var m0 := solver.Snapshot();
    ghost var calls := EnergyCalls(constraints, powerStartIndex, taskIntervals, horizon, sense);
    PerformedStart(m0, calls, solver.engine);
    var j := 0;
    while j < |constraints|
      invariant 0 <= j <= |constraints|
      invariant Performed(m0, calls[..j], solver.Snapshot(), Pass, solver.engine)
      invariant solver.lastRun == old(solver.lastRun) && !solver.freed
    {
      var sc := constraints[j];
      ghost var before := solver.Snapshot();
      if exists t | 0 <= t < horizon :: InRange(sc, horizon, t) && taskIntervals.ValueForInterval(t).None? {
        o := Fail(NoValuePresent.message);
        PerformedThrow(before, NoValuePresent, before, solver.engine);
      } else {
        var weights := EnergyWeights(sc, powerStartIndex, taskIntervals, horizon);
        if sense == Ge {
          o := solver.AddGeqWeightedSumConstraint(weights, sc.sum);
        } else {
          o := solver.AddLeqWeightedSumConstraint(weights, sc.sum);
        }
      }
      PerformedStep(m0, calls, j, before, solver.Snapshot(), o, solver.engine);
      if o.Fail? {
        return;
      }
      j := j + 1;
    }
    PerformedAll(m0, calls, solver.Snapshot(), solver.engine);
    o := Pass;
  }

  /** `setUpContractEnergyConstraints`: the minimum sums, then the maximum sums. */
  method SetUpContractEnergyConstraints(solver: LpSolveSolver, horizon: int, contract: Contract, x: ContractIndexes,
                                        taskIntervals: Profile<real>) returns (o: Outcome<string>)
    requires !solver.freed
    modifies solver
    ensures Performed(old(solver.Snapshot()), ContractEnergyCalls(contract, x, taskIntervals, horizon), solver.Snapshot(), o, solver.engine)
    ensures solver.lastRun == old(solver.lastRun) && !solver.freed
  {
    ghost var m0 := solver.Snapshot();
    ghost var minCalls := if contract.minEnergyConstraints.Some? then EnergyCalls(contract.minEnergyConstraints.value, x.power, taskIntervals, horizon, Ge) else [];
    ghost var maxCalls := if contract.maxEnergyConstraints.Some? then EnergyCalls(contract.maxEnergyConstraints.value, x.power, taskIntervals, horizon, Le) else [];
    o := Pass;
    if contract.minEnergyConstraints.Some? {
      o := SetUpEnergySums(solver, contract.minEnergyConstraints.value, x.power, taskIntervals, horizon, Ge);
    } else {
      PerformedNothing(m0, solver.engine);
    }
    ghost var m1 := solver.Snapshot();
    ghost var o1 := o;
    if o.Pass? {
      if contract.maxEnergyConstraints.Some? {
        o := SetUpEnergySums(solver, contract.maxEnergyConstraints.value, x.power, taskIntervals, horizon, Le);
      } else {
        PerformedNothing(m1, solver.engine);
      }
    }
    PerformedSeq(m0, minCalls, m1, o1, maxCalls, solver.Snapshot(), o, solver.engine);
  }

  /** `setUpContractsConstraints`: power bounds, then energy sums, contract by contract. */
  method SetUpContractsConstraints(task: Task, solver: LpSolveSolver, layout: Layout) returns (o: Outcome<string>)
    requires Shaped(task, layout) && !solver.freed
    modifies solver
    ensures Performed(old(solver.Snapshot()), Concat(ContractCallGroups(task, layout)), solver.Snapshot(), o, solver.engine)
    ensures solver.lastRun == old(solver.lastRun) && !solver.freed
  {
    ghost var m0 := solver.Snapshot();
    ghost var groups := ContractCallGroups(task, layout);
    var horizon := task.OptimizationHorizonLength();
    var taskIntervals := task.intervals;
    PerformedStartGroups(m0, groups, solver.engine);
    var i := 0;
    while i < |task.contracts|
      invariant 0 <= i <= |task.contracts|
      invariant Performed(m0, Concat(groups[..i]), solver.Snapshot(), Pass, solver.engine)
      invariant solver.lastRun == old(solver.lastRun) && !solver.freed
    {
      var contract := task.contracts[i];
      var x := layout.contracts[i];
      ghost var before := solver.Snapshot();
      o := SetUpContractPowerConstraints(solver, horizon, contract, x);
      ghost var mid := solver.Snapshot();
      ghost var o1 := o;
      if o.Pass? {
        o := SetUpContractEnergyConstraints(solver, horizon, contract, x, taskIntervals);
      }
      PerformedSeq(before, ContractPowerCalls(contract, x, horizon), mid, o1,
                   ContractEnergyCalls(contract, x, taskIntervals, horizon), solver.Snapshot(), o, solver.engine);
      PerformedGroup(m0, groups, i, before, solver.Snapshot(), o, solver.engine);
      if o.Fail? {
        return;
      }
      i := i + 1;
    }
    PerformedAllGroups(m0, groups, solver.Snapshot(), solver.engine);
    o := Pass;
  }

  // ---------------------------------------------------------------------------------------
  // setUpStoragesConstraints

  /** `setUpStorageEnergyBalance`: interval 0 against the initial energy, then each interval against the one before. */
  method SetUpStorageEnergyBalance(solver: LpSolveSolver, intervalsDuration: seq<real>, storage: Storage, x: StorageIndexes) returns (o: Outcome<string>)
    requires !solver.freed
    modifies solver
    ensures Performed(old(solver.Snapshot()), EnergyBalanceCalls(storage, x, intervalsDuration), solver.Snapshot(), o, solver.engine)
    ensures solver.lastRun == old(solver.lastRun) && !solver.freed
  {
    ghost var m0 := solver.Snapshot();
    ghost var calls := EnergyBalanceCalls(storage, x, intervalsDuration);
    if |intervalsDuration| == 0 {
      o := Fail(IndexOutOfBoundsFor(0, 0).message);
      PerformedThrow(m0, IndexOutOfBoundsFor(0, 0), m0, solver.engine);
      return;
    }
    EnergyBalanceCallAt(storage, x, intervalsDuration, 0);
    var firstIntervalBalance := map[x.energy := -1.0][x.charge := 1.0 * intervalsDuration[0]][x.discharge := -1.0 * intervalsDuration[0]];
    assert calls[0] == WeightedSum(firstIntervalBalance, Eq, -1.0 * storage.initialEnergy);
    PerformedStart(m0, calls, solver.engine);
    o := solver.AddEqWeightedSumConstraint(firstIntervalBalance, -1.0 * storage.initialEnergy);
    PerformedStep(m0, calls, 0, m0, solver.Snapshot(), o, solver.engine);
    if o.Fail? {
      return;
    }
    var interval := 1;
    while interval < |intervalsDuration|
      invariant 1 <= interval <= |intervalsDuration|
      invariant Performed(m0, calls[..interval], solver.Snapshot(), Pass, solver.engine)
      invariant solver.lastRun == old(solver.lastRun) && !solver.freed
    {
      var intervalBalance := map[x.energy + interval - 1 := 1.0][x.energy + interval := -1.0]
                                [x.charge + interval := 1.0 * intervalsDuration[interval]]
                                [x.discharge + interval := -1.0 * intervalsDuration[interval]];
      assert NextBalanceCall(x, interval, intervalsDuration[interval]) == WeightedSum(intervalBalance, Eq, 0.0);
      EnergyBalanceCallAt(storage, x, intervalsDuration, interval);
      ghost var before := solver.Snapshot();
      o := solver.AddEqWeightedSumConstraint(intervalBalance, 0.0);
      PerformedStep(m0, calls, interval, before, solver.Snapshot(), o, solver.engine);
      if o.Fail? {
        return;
      }
      interval := interval + 1;
    }
    PerformedAll(m0, calls, solver.Snapshot(), solver.engine);
    o := Pass;
  }

  /** One pass of `setUpStorageModeIndicators`' loop: the charge row, then the discharge row. */
  method AddModeRows(solver: LpSolveSolver, x: StorageIndexes, interval: int, storageBigM: real) returns (o: Outcome<string>)
    requires !solver.freed
    modifies solver
    ensures Performed(old(solver.Snapshot()), [ChargeModeCall(x, interval, storageBigM), DischargeModeCall(x, interval, storageBigM)],
                      solver.Snapshot(), o, solver.engine)
    ensures solver.lastRun == old(solver.lastRun) && !solver.freed
  {
    ghost var m0 := solver.Snapshot();
    var chargeRow := map[x.charge + interval := 1.0][x.chargeIndicator + interval := -1.0 * storageBigM];
    var dischargeRow := map[x.discharge + interval := 1.0][x.chargeIndicator + interval := storageBigM];
    assert WeightedSum(chargeRow, Le, 0.0) == ChargeModeCall(x, interval, storageBigM);
    assert WeightedSum(dischargeRow, Le, storageBigM) == DischargeModeCall(x, interval, storageBigM);
    o := solver.AddLeqWeightedSumConstraint(chargeRow, 0.0);
    ghost var m1, o1 := solver.Snapshot(), o;
    if o.Pass? {
      o := solver.AddLeqWeightedSumConstraint(dischargeRow, storageBigM);
    }
    PerformedPair(m0, WeightedSum(chargeRow, Le, 0.0), m1, o1, WeightedSum(dischargeRow, Le, storageBigM), solver.Snapshot(), o, solver.engine);
  }

  /** `setUpStorageModeIndicators`. */
  method SetUpStorageModeIndicators(solver: LpSolveSolver, horizon: nat, x: StorageIndexes, storageBigM: real) returns (o: Outcome<string>)
    requires !solver.freed
    modifies solver
    ensures Performed(old(solver.Snapshot()), Concat(ModeCallGroups(x, horizon, storageBigM)), solver.Snapshot(), o, solver.engine)
    ensures solver.lastRun == old(solver.lastRun) && !solver.freed
  {
    ghost var m0 := solver.Snapshot();
    ghost var groups := ModeCallGroups(x, horizon, storageBigM);
    PerformedStartGroups(m0, groups, solver.engine);
    var interval := 0;
    while interval < horizon
      invariant 0 <= interval <= horizon
      invariant Performed(m0, Concat(groups[..interval]), solver.Snapshot(), Pass, solver.engine)
      invariant solver.lastRun == old(solver.lastRun) && !solver.freed
    {
      ghost var before := solver.Snapshot();
      o := AddModeRows(solver, x, interval, storageBigM);
      PerformedGroup(m0, groups, interval, before, solver.Snapshot(), o, solver.engine);
      if o.Fail? {
        return;
      }
      interval := interval + 1;
    }
    PerformedAllGroups(m0, groups, solver.Snapshot(), solver.engine);
    o := Pass;
  }

  /**
   * `setUpStorageChargeConstraints`, `setUpStorageDischargeConstraints` and
   * `setUpStorageEnergyConstraints`, which differ only in the block and the physical maximum.
   */
  method SetUpStorageBounds(solver: LpSolveSolver, horizon: nat, minimal: Option<map<int, real>>, maximal: Option<map<int, real>>,
                            startIndex: int, maximum: real) returns (o: Outcome<string>)
    requires !solver.freed
    modifies solver
    ensures Performed(old(solver.Snapshot()), BoundCalls(minimal, maximal, startIndex, horizon, maximum), solver.Snapshot(), o, solver.engine)
    ensures solver.lastRun == old(solver.lastRun) && !solver.freed
  {
    ghost var m0 := solver.Snapshot();
    ghost var lowerCalls := if minimal.Some? then [LowerBounds(ShiftKeys(minimal.value, startIndex))] else [];
    ghost var upperCalls := if maximal.Some?
                            then [UpperBounds(ShiftKeys(maximal.value, startIndex)), UpperBounds(DefaultBounds(maximal.value, startIndex, horizon, maximum))]
                            else [UpperBounds(DefaultBounds(map[], startIndex, horizon, maximum))];
    o := Pass;
    if minimal.Some? {
      var bounds := minimal.value;
      o := solver.AddLowerBounds(ShiftKeys(bounds, startIndex));
    } else {
      PerformedNothing(m0, solver.engine);
    }
    ghost var m1 := solver.Snapshot();
    ghost var o1 := o;
    if o.Pass? {
      if maximal.Some? {
        var bounds := maximal.value;
        o := solver.AddUpperBounds(ShiftKeys(bounds, startIndex));
        ghost var m2 := solver.Snapshot();
        ghost var o2 := o;
        if o.Pass? {
          o := solver.AddUpperBounds(DefaultBounds(bounds, startIndex, horizon, maximum));
        }
        PerformedSeq(m1, [UpperBounds(ShiftKeys(bounds, startIndex))], m2, o2,
                     [UpperBounds(DefaultBounds(bounds, startIndex, horizon, maximum))], solver.Snapshot(), o, solver.engine);
        assert [UpperBounds(ShiftKeys(bounds, startIndex))] + [UpperBounds(DefaultBounds(bounds, startIndex, horizon, maximum))] == upperCalls;
      } else {
        o := solver.AddUpperBounds(DefaultBounds(map[], startIndex, horizon, maximum));
      }
    }
    PerformedSeq(m0, lowerCalls, m1, o1, upperCalls, solver.Snapshot(), o, solver.engine);
  }

  /** `setUpStorageForbiddenStates`: forbidden charge intervals fixed at 0, then forbidden discharge intervals. */
  method SetUpStorageForbiddenStates(solver: LpSolveSolver, storage: Storage, x: StorageIndexes) returns (o: Outcome<string>)
    requires !solver.freed
    modifies solver
    ensures Performed(old(solver.Snapshot()), ForbiddenCalls(storage, x), solver.Snapshot(), o, solver.engine)
    ensures solver.lastRun == old(solver.lastRun) && !solver.freed
  {
    ghost var m0 := solver.Snapshot();
    ghost var chargeCalls := if storage.forbiddenChargeIntervals.Some? then [Fix(FixEntries(storage.forbiddenChargeIntervals.value, x.charge))] else [];
    ghost var dischargeCalls := if storage.forbiddenDischargeIntervals.Some? then [Fix(FixEntries(storage.forbiddenDischargeIntervals.value, x.discharge))] else [];
    o := Pass;
    if storage.forbiddenChargeIntervals.Some? {
      var forbidden := storage.forbiddenChargeIntervals.value;
      o := solver.FixVariables(FixEntries(forbidden, x.charge));
    } else {
      PerformedNothing(m0, solver.engine);
    }
    ghost var m1 := solver.Snapshot();
    ghost var o1 := o;
    if o.Pass? {
      if storage.forbiddenDischargeIntervals.Some? {
        var forbidden := storage.forbiddenDischargeIntervals.value;
        o := solver.FixVariables(FixEntries(forbidden, x.discharge));
      } else {
        PerformedNothing(m1, solver.engine);
      }
    }
    PerformedSeq(m0, chargeCalls, m1, o1, dischargeCalls, solver.Snapshot(), o, solver.engine);
  }

  /** The energy balance rows, then the mode rows, of one storage. */
  method SetUpStorageRows(solver: LpSolveSolver, intervalsDuration: seq<real>, storage: Storage, x: StorageIndexes) returns (o: Outcome<string>)
    requires !solver.freed
    modifies solver
    ensures Performed(old(solver.Snapshot()), EnergyBalanceCalls(storage, x, intervalsDuration)
                                              + Concat(ModeCallGroups(x, |intervalsDuration|, BigM(storage))),
                      solver.Snapshot(), o, solver.engine)
    ensures solver.lastRun == old(solver.lastRun) && !solver.freed
  {
    var storageBigM := MaxReal(storage.maxCharge, storage.maxDischarge) * 100.0;
    assert storageBigM == BigM(storage);
    ghost var balanceCalls := EnergyBalanceCalls(storage, x, intervalsDuration);
    ghost var modeCalls := Concat(ModeCallGroups(x, |intervalsDuration|, storageBigM));
    ghost var m0 := solver.Snapshot();
    o := SetUpStorageEnergyBalance(solver, intervalsDuration, storage, x);
    ghost var m1 := solver.Snapshot();
    ghost var o1 := o;
    if o.Pass? {
      o := SetUpStorageModeIndicators(solver, |intervalsDuration|, x, storageBigM);
    }
    PerformedSeq(m0, balanceCalls, m1, o1, modeCalls, solver.Snapshot(), o, solver.engine);
  }

  /** The charge, discharge and energy bounds of one storage. */
  method SetUpStorageAllBounds(solver: LpSolveSolver, horizon: nat, storage: Storage, x: StorageIndexes) returns (o: Outcome<string>)
    requires !solver.freed
    modifies solver
    ensures Performed(old(solver.Snapshot()), StorageBoundCalls(storage, x, horizon), solver.Snapshot(), o, solver.engine)
    ensures solver.lastRun == old(solver.lastRun) && !solver.freed
  {
    ghost var chargeCalls := BoundCalls(storage.minChargeConstraints, storage.maxChargeConstraints, x.charge, horizon, storage.maxCharge);
    ghost var dischargeCalls := BoundCalls(storage.minDischargeConstraints, storage.maxDischargeConstraints, x.discharge, horizon, storage.maxDischarge);
    ghost var energyCalls := BoundCalls(storage.minEnergyConstraints, storage.maxEnergyConstraints, x.energy, horizon, storage.maxCapacity);
    ghost var m0 := solver.Snapshot();
    o := SetUpStorageBounds(solver, horizon, storage.minChargeConstraints, storage.maxChargeConstraints, x.charge, storage.maxCharge);
    ghost var m1 := solver.Snapshot();
    ghost var o1 := o;
    if o.Pass? {
      o := SetUpStorageBounds(solver, horizon, storage.minDischargeConstraints, storage.maxDischargeConstraints, x.discharge, storage.maxDischarge);
    }
    PerformedSeq(m0, chargeCalls, m1, o1, dischargeCalls, solver.Snapshot(), o, solver.engine);
    ghost var m2 := solver.Snapshot();
    ghost var o2 := o;
    if o.Pass? {
      o := SetUpStorageBounds(solver, horizon, storage.minEnergyConstraints, storage.maxEnergyConstraints, x.energy, storage.maxCapacity);
    }
    PerformedSeq(m0, chargeCalls + dischargeCalls, m2, o2, energyCalls, solver.Snapshot(), o, solver.engine);
  }

  /** The body of `setUpStoragesConstraints`' loop for one storage. */
  method SetUpStorageConstraints(task: Task, solver: LpSolveSolver, storage: Storage, x: StorageIndexes) returns (o: Outcome<string>)
    requires !solver.freed
    modifies solver
    ensures Performed(old(solver.Snapshot()), OneStorageCalls(task, storage, x), solver.Snapshot(), o, solver.engine)
    ensures solver.lastRun == old(solver.lastRun) && !solver.freed
  {
    var horizon := task.OptimizationHorizonLength();
    ghost var rowCalls := EnergyBalanceCalls(storage, x, task.intervals.values) + Concat(ModeCallGroups(x, horizon, BigM(storage)));
    ghost var m0 := solver.Snapshot();
    o := SetUpStorageRows(solver, task.intervals.values, storage, x);
    ghost var m1 := solver.Snapshot();
    ghost var o1 := o;
    if o.Pass? {
      o := SetUpStorageAllBounds(solver, horizon, storage, x);
    }
    PerformedSeq(m0, rowCalls, m1, o1, StorageBoundCalls(storage, x, horizon), solver.Snapshot(), o, solver.engine);
    ghost var m2 := solver.Snapshot();
    ghost var o2 := o;
    if o.Pass? {
      o := SetUpStorageForbiddenStates(solver, storage, x);
    }
    PerformedSeq(m0, rowCalls + StorageBoundCalls(storage, x, horizon), m2, o2, ForbiddenCalls(storage, x), solver.Snapshot(), o, solver.engine);
  }

  /** `setUpStoragesConstraints`. */
  method SetUpStoragesConstraints(task: Task, solver: LpSolveSolver, layout: Layout) returns (o: Outcome<string>)
    requires Shaped(task, layout) && !solver.freed
    modifies solver
    ensures Performed(old(solver.Snapshot()), Concat(StorageCallGroups(task, layout)), solver.Snapshot(), o, solver.engine)
    ensures solver.lastRun == old(solver.lastRun) && !solver.freed
  {
    ghost var m0 := solver.Snapshot();
    ghost var groups := StorageCallGroups(task, layout);
    PerformedStartGroups(m0, groups, solver.engine);
    var i := 0;
    while i < |task.storages|
      invariant 0 <= i <= |task.storages|
      invariant Performed(m0, Concat(groups[..i]), solver.Snapshot(), Pass, solver.engine)
      invariant solver.lastRun == old(solver.lastRun) && !solver.freed
    {
      ghost var before := solver.Snapshot();
      o := SetUpStorageConstraints(task, solver, task.storages[i], layout.storages[i]);
      PerformedGroup(m0, groups, i, before, solver.Snapshot(), o, solver.engine);
      if o.Fail? {
        return;
      }
      i := i + 1;
    }
    PerformedAllGroups(m0, groups, solver.Snapshot(), solver.engine);
    o := Pass;
  }

  // ---------------------------------------------------------------------------------------
  // setUpMovableDemandConstraints

  /** The link rows of one variant: power(index) equals the profile value times the indicator. */
  method SetUpVariantLinks(solver: LpSolveSolver, demand: MovableDemand, data: VariantIndexes) returns (o: Outcome<string>)
    requires !solver.freed && data.length <= |demand.profile|
    modifies solver
    ensures Performed(old(solver.Snapshot()), LinkCalls(demand, data), solver.Snapshot(), o, solver.engine)
    ensures solver.lastRun == old(solver.lastRun) && !solver.freed
  {
    ghost var m0 := solver.Snapshot();
    ghost var calls := LinkCalls(demand, data);
    PerformedStart(m0, calls, solver.engine);
    var index := 0;
    while index < data.length
      invariant 0 <= index <= Width(data.length)
      invariant Performed(m0, calls[..index], solver.Snapshot(), Pass, solver.engine)
      invariant solver.lastRun == old(solver.lastRun) && !solver.freed
    {
      var intervalBalance := map[data.variantIndicator := -1.0 * demand.profile[index]][data.power + index := 1.0];
      assert calls[index] == WeightedSum(intervalBalance, Eq, 0.0);
      ghost var before := solver.Snapshot();
      o := solver.AddEqWeightedSumConstraint(intervalBalance, 0.0);
      PerformedStep(m0, calls, index, before, solver.Snapshot(), o, solver.engine);
      if o.Fail? {
        return;
      }
      index := index + 1;
    }
    PerformedAll(m0, calls, solver.Snapshot(), solver.engine);
    o := Pass;
  }

  /** The body of `setUpMovableDemandConstraints`' loop: every variant's links, then "exactly one variant". */
  method SetUpMovableDemand(solver: LpSolveSolver, demand: MovableDemand, dataSet: seq<VariantIndexes>) returns (o: Outcome<string>)
    requires !solver.freed && FitsProfile(demand, dataSet)
    modifies solver
    ensures Performed(old(solver.Snapshot()), OneMovableCalls(demand, dataSet), solver.Snapshot(), o, solver.engine)
    ensures solver.lastRun == old(solver.lastRun) && !solver.freed
  {
    ghost var m0 := solver.Snapshot();
    ghost var groups := LinkCallGroups(demand, dataSet);
    PerformedStartGroups(m0, groups, solver.engine);
    var j := 0;
    while j < |dataSet|
      invariant 0 <= j <= |dataSet|
      invariant Performed(m0, Concat(groups[..j]), solver.Snapshot(), Pass, solver.engine)
      invariant solver.lastRun == old(solver.lastRun) && !solver.freed
    {
      ghost var before := solver.Snapshot();
      o := SetUpVariantLinks(solver, demand, dataSet[j]);
      PerformedGroup(m0, groups, j, before, solver.Snapshot(), o, solver.engine);
      if o.Fail? {
        PerformedFailed(m0, Concat(groups), solver.Snapshot(), [SumCall(VariantIndicators(dataSet), Eq, 1.0)], solver.Snapshot(), o.error, solver.engine);
        return;
      }
      j := j + 1;
    }
    PerformedAllGroups(m0, groups, solver.Snapshot(), solver.engine);
    ghost var m1 := solver.Snapshot();
    o := solver.AddEqSumConstraint(VariantIndicators(dataSet), 1.0);
    PerformedThen(m0, Concat(groups), m1, [SumCall(VariantIndicators(dataSet), Eq, 1.0)], solver.Snapshot(), o, solver.engine);
  }

  /** `setUpMovableDemandConstraints`. */
  method SetUpMovableDemandConstraints(task: Task, solver: LpSolveSolver, layout: Layout) returns (o: Outcome<string>)
    requires Shaped(task, layout) && !solver.freed
    modifies solver
    ensures Performed(old(solver.Snapshot()), Concat(MovableCallGroups(task, layout)), solver.Snapshot(), o, solver.engine)
    ensures solver.lastRun == old(solver.lastRun) && !solver.freed
  {
    ghost var m0 := solver.Snapshot();
    ghost var groups := MovableCallGroups(task, layout);
    PerformedStartGroups(m0, groups, solver.engine);
    var k := 0;
    while k < |task.movableDemands|
      invariant 0 <= k <= |task.movableDemands|
      invariant Performed(m0, Concat(groups[..k]), solver.Snapshot(), Pass, solver.engine)
      invariant solver.lastRun == old(solver.lastRun) && !solver.freed
    {
      ghost var before := solver.Snapshot();
      ShapedFits(task, layout, k);
      o := SetUpMovableDemand(solver, task.movableDemands[k], layout.variants[k]);
      PerformedGroup(m0, groups, k, before, solver.Snapshot(), o, solver.engine);
      if o.Fail? {
        return;
      }
      k := k + 1;
    }
    PerformedAllGroups(m0, groups, solver.Snapshot(), solver.engine);
    o := Pass;
  }

  // ---------------------------------------------------------------------------------------
  // setUpObjectiveFunction

  /** The inner loop of `setUpObjectiveFunction`: the cost of one contract's power on each of its active intervals. */
  method PutContractCosts(task: Task, contract: Contract, x: ContractIndexes, base: map<int, real>) returns (costCoefficients: map<int, real>)
    ensures costCoefficients == PutEntries(base, ObjectiveEntries(task, contract, x))
  {
    ghost var entries := ObjectiveEntries(task, contract, x);
    var taskIntervals := task.intervals;
    costCoefficients := base;
    var interval := 0;
    while interval < task.OptimizationHorizonLength()
      invariant 0 <= interval <= task.OptimizationHorizonLength()
      invariant costCoefficients == PutEntries(base, entries[..interval])
    {
      PutEntriesStep(base, entries, interval);
      assert entries[interval] == if contract.IsActiveAt(interval)
                                  then Some((PowerColumn(contract, x, interval), CostCoefficient(contract, task.intervals, interval)))
                                  else None;
      if contract.IsActiveAt(interval) {
        var price := contract.unitPrice.ValueForInterval(interval).value;
        var duration := taskIntervals.ValueForInterval(interval).GetOr(0.0);
        if contract.contractDirection == Purchase {
          costCoefficients := costCoefficients[x.power + interval - contract.StartInterval() := price * duration];
        } else {
          costCoefficients := costCoefficients[x.power + interval - contract.StartInterval() := -1.0 * price * duration];
        }
        assert PowerColumn(contract, x, interval) == x.power + interval - contract.StartInterval();
        assert CostCoefficient(contract, task.intervals, interval) == if contract.contractDirection == Purchase then price * duration else -1.0 * price * duration;
      }
      interval := interval + 1;
    }
    PutEntriesWhole(base, entries);
  }

  /** The loops of `setUpObjectiveFunction`, contract by contract. */
  method CostCoefficientsOf(task: Task, layout: Layout) returns (costCoefficients: map<int, real>)
    requires Shaped(task, layout)
    ensures costCoefficients == ObjectiveCoefficients(task, layout)
  {
    ghost var groups := ObjectiveEntryGroups(task, layout);
    costCoefficients := map[];
    var i := 0;
    while i < |task.contracts|
      invariant 0 <= i <= |task.contracts|
      invariant costCoefficients == PutEntries(map[], Concat(groups[..i]))
    {
      costCoefficients := PutContractCosts(task, task.contracts[i], layout.contracts[i], costCoefficients);
      ConcatSnoc(groups, i);
      PutEntriesAppend(map[], Concat(groups[..i]), groups[i]);
      i := i + 1;
    }
    assert groups[..i] == groups;
  }

  /** `setUpObjectiveFunction`: the cost coefficients of all contracts, set as the objective row. */
  method SetUpObjectiveFunction(task: Task, solver: LpSolveSolver, layout: Layout) returns (o: Outcome<string>)
    requires Shaped(task, layout) && !solver.freed
    modifies solver
    ensures Performed(old(solver.Snapshot()), [SetObjective(ObjectiveCoefficients(task, layout))], solver.Snapshot(), o, solver.engine)
    ensures solver.lastRun == old(solver.lastRun) && !solver.freed
  {
    var costCoefficients := CostCoefficientsOf(task, layout);
    o := solver.SetObjectiveFunction(costCoefficients);
  }

  // ---------------------------------------------------------------------------------------
  // The set-up sequence of solve

  /** The `setUp*` calls of `solve`, in order; the first exception skips the rest. */
  method SetUpModel(task: Task, solver: LpSolveSolver, layout: Layout) returns (o: Outcome<string>)
    requires Shaped(task, layout) && !solver.freed
    modifies solver
    ensures Performed(old(solver.Snapshot()), BuildCalls(task, layout), solver.Snapshot(), o, solver.engine)
    ensures solver.lastRun == old(solver.lastRun) && !solver.freed
  {
    ghost var m0 := solver.Snapshot();
    ghost var balance := BalanceCalls(task, layout);
    ghost var contracts := Concat(ContractCallGroups(task, layout));
    ghost var storages := Concat(StorageCallGroups(task, layout));
    ghost var movables := Concat(MovableCallGroups(task, layout));
    ghost var objective := [SetObjective(ObjectiveCoefficients(task, layout))];

    o := SetUpPowerBalance(task, solver, layout);
    ghost var m1, o1 := solver.Snapshot(), o;
    if o.Pass? {
      o := SetUpContractsConstraints(task, solver, layout);
    }
    PerformedSeq(m0, balance, m1, o1, contracts, solver.Snapshot(), o, solver.engine);
    ghost var m2, o2 := solver.Snapshot(), o;
    if o.Pass? {
      o := SetUpStoragesConstraints(task, solver, layout);
    }
    PerformedSeq(m0, balance + contracts, m2, o2, storages, solver.Snapshot(), o, solver.engine);
    ghost var m3, o3 := solver.Snapshot(), o;
    if o.Pass? {
      o := SetUpMovableDemandConstraints(task, solver, layout);
    }
    PerformedSeq(m0, balance + contracts + storages, m3, o3, movables, solver.Snapshot(), o, solver.engine);
    ghost var m4, o4 := solver.Snapshot(), o;
    if o.Pass? {
      o := SetUpObjectiveFunction(task, solver, layout);
    }
    PerformedSeq(m0, balance + contracts + storages + movables, m4, o4, objective, solver.Snapshot(), o, solver.engine);
  }
}
