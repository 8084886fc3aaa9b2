/**
 * Reading the solution back (`getContractsResults`, `contractCostForEnergy`,
 * `getStoragesResults`, `getMovableDemandResults` of service/OptimizerImpl): the solution
 * is the map from column to value that `getSolution` returns.
 */
module Decode {
  import opened Wrappers
  import opened Exceptions
  import opened SolverModel
  import opened Profiles
  import opened Contracts
  import opened Storages
  import opened MovableDemands
  import opened Tasks
  import opened Layouts
  import opened Balance
  import R = Results

  /** The values of the solution's columns in [lo, hi), by ascending column (a filtered, sorted stream). */
  function Slice(sol: map<int, real>, lo: int, hi: int): (s: seq<real>)
    ensures |s| <= Width(hi - lo)
    decreases hi - lo
  {
    if hi <= lo then [] else Slice(sol, lo, hi - 1) + (if hi - 1 in sol then [sol[hi - 1]] else [])
  }

  /** With every column of the range present, the slice lists exactly their values, in column order. */
  lemma {:induction false} SliceOfPresent(sol: map<int, real>, lo: int, hi: int)
    requires forall k :: lo <= k < hi ==> k in sol
    ensures |Slice(sol, lo, hi)| == Width(hi - lo)
    ensures forall i :: 0 <= i < Width(hi - lo) ==> Slice(sol, lo, hi)[i] == sol[lo + i]
    decreases hi - lo
  {
    if hi > lo {
      SliceOfPresent(sol, lo, hi - 1);
    }
  }

  // ---------------------------------------------------------------------------------------
  // Contracts

  /** The durations of the intervals [start, start + length); a missing one makes `orElseThrow` fail. */
  function Durations(intervals: Profile<real>, start: int, length: int): Result<seq<real>, Exception> {
    if exists t | start <= t < start + length :: intervals.ValueForInterval(t).None? then Failure(NoValuePresent)
    else Success(seq(Width(length), i requires 0 <= i < Width(length) => intervals.ValueForInterval(start + i).value))
  }

  /**
   * The energy list of `getContractsResults`: `new ArrayList<>(contractLength)` rejects a
   * negative length, then each power is multiplied by its interval's duration.
   */
  method ContractEnergy(contractLength: int, power: seq<real>, durations: seq<real>) returns (r: Result<seq<real>, Exception>)
    requires |power| <= |durations|
    ensures contractLength < 0 ==> r == Failure(IllegalCapacity(contractLength))
    ensures contractLength >= 0 ==> r.Success? && |r.value| == |power|
    ensures contractLength >= 0 ==> forall i :: 0 <= i < |power| ==> r.value[i] == power[i] * durations[i]
  {
    if contractLength < 0 {
      return Failure(IllegalCapacity(contractLength));
    }
    var energy: seq<real> := [];
    var i := 0;
    while i < |power|
      invariant 0 <= i <= |power| && |energy| == i
      invariant forall j :: 0 <= j < i ==> energy[j] == power[j] * durations[j]
    {
      energy := energy + [power[i] * durations[i]];
      i := i + 1;
    }
    return Success(energy);
  }

  /** `contractCostForEnergy`: the unit price of the contract's i-th interval times the i-th energy. */
  method ContractCostForEnergy(contract: Contract, energy: seq<real>) returns (r: Result<seq<real>, Exception>)
    ensures r.Success? <==> |energy| <= contract.ContractLength()
    ensures r.Failure? ==> r.error == NoValuePresent
    ensures r.Success? ==> |r.value| == |energy|
    ensures r.Success? ==> forall i :: 0 <= i < |energy| ==> r.value[i] == contract.unitPrice.values[i] * energy[i]
  {
    var cost: seq<real> := [];
    var i := 0;
    while i < |energy|
      invariant 0 <= i <= |energy| && |cost| == i && i <= |contract.unitPrice.values|
      invariant forall j :: 0 <= j < i ==> cost[j] == contract.unitPrice.values[j] * energy[j]
    {
      var price := contract.unitPrice.ValueForIndex(i);
      if price.None? {
        return Failure(NoValuePresent);
      }
      cost := cost + [price.value * energy[i]];
      i := i + 1;
    }
    return Success(cost);
  }

  function Products(a: seq<real>, b: seq<real>): (p: seq<real>)
    requires |a| <= |b|
    ensures |p| == |a|
  {
    seq(|a|, i requires 0 <= i < |a| => a[i] * b[i])
  }

  /** One contract's result, or the exception its decoding raises. */
  function ContractOutcome(task: Task, c: Contract, x: ContractIndexes, sol: map<int, real>): Result<R.ContractResult, Exception> {
    var power := Slice(sol, x.power, x.power + x.length);
    match Durations(task.intervals, c.StartInterval(), x.length)
    case Failure(e) => Failure(e)
    case Success(durations) =>
      if x.length < 0 then Failure(IllegalCapacity(x.length))
      else
        var energy := Products(power, durations);
        if |energy| > c.ContractLength() then Failure(NoValuePresent)
        else
          var cost := Products(c.unitPrice.values[..|energy|], energy);
          Success(R.ContractResult(c.id, c.name, Profile(c.StartInterval(), power),
                                 Profile(c.StartInterval(), energy), Profile(c.StartInterval(), cost)))
  }

  /** The body of `getContractsResults`' loop for one contract. */
  method DecodeContract(task: Task, c: Contract, x: ContractIndexes, sol: map<int, real>) returns (r: Result<R.ContractResult, Exception>)
    ensures r == ContractOutcome(task, c, x, sol)
  {
    var power := Slice(sol, x.power, x.power + x.length);
    var durations := Durations(task.intervals, c.StartInterval(), x.length);
    if durations.Failure? {
      return Failure(durations.error);
    }
    var energy := ContractEnergy(x.length, power, durations.value);
    if energy.Failure? {
      return Failure(energy.error);
    }
    assert |energy.value| == |power|;
    assert forall i :: 0 <= i < |power| ==> energy.value[i] == Products(power, durations.value)[i];
    assert energy.value == Products(power, durations.value);
    var cost := ContractCostForEnergy(c, energy.value);
    if cost.Failure? {
      return Failure(cost.error);
    }
    assert |energy.value| <= |c.unitPrice.values|;
    assert forall i :: 0 <= i < |energy.value| ==>
      cost.value[i] == Products(c.unitPrice.values[..|energy.value|], energy.value)[i];
    assert cost.value == Products(c.unitPrice.values[..|energy.value|], energy.value);
    r := Success(R.ContractResult(c.id, c.name, Profile(c.StartInterval(), power),
                                Profile(c.StartInterval(), energy.value), Profile(c.StartInterval(), cost.value)));
  }

  /**
   * A contract inside the horizon whose block holds solution values decodes to its power
   * per interval, that power times the interval's duration as energy, and the energy
   * times the interval's unit price as cost, all starting at the contract's first interval.
   */
  lemma ContractDecoded(task: Task, c: Contract, x: ContractIndexes, sol: map<int, real>)
    requires x.length == ContractColumns(c, task.OptimizationHorizonLength()) && x.length >= 0
    requires forall k :: x.power <= k < x.power + x.length ==> k in sol
    requires forall t :: c.StartInterval() <= t < c.StartInterval() + x.length ==> task.intervals.ValueForInterval(t).Some?
    ensures var r := ContractOutcome(task, c, x, sol);
            && r.Success?
            && r.value.id == c.id && r.value.name == c.name
            && r.value.power.startInterval == r.value.energy.startInterval == r.value.cost.startInterval == c.StartInterval()
            && |r.value.power.values| == |r.value.energy.values| == |r.value.cost.values| == x.length
            && forall i :: 0 <= i < x.length ==>
                 var t := c.StartInterval() + i;
                 && r.value.power.values[i] == sol[x.power + i]
                 && r.value.energy.values[i] == sol[x.power + i] * task.intervals.ValueForInterval(t).value
                 && r.value.cost.values[i] == c.unitPrice.ValueForInterval(t).value * r.value.energy.values[i]
  {
    SliceOfPresent(sol, x.power, x.power + x.length);
  }

  /** A contract starting after the horizon gets a negative column count, and decoding fails on it. */
  lemma ContractAfterHorizonFails(task: Task, c: Contract, x: ContractIndexes, sol: map<int, real>)
    requires c.StartInterval() > task.OptimizationHorizonLength()
    requires x.length == ContractColumns(c, task.OptimizationHorizonLength())
    ensures x.length == task.OptimizationHorizonLength() - c.StartInterval() < 0
    ensures ContractOutcome(task, c, x, sol) == Failure(IllegalCapacity(x.length))
  {
  }

  /** A contract interval without a duration makes decoding fail with `NoSuchElementException`. */
  lemma MissingDurationFails(task: Task, c: Contract, x: ContractIndexes, sol: map<int, real>, t: int)
    requires c.StartInterval() <= t < c.StartInterval() + x.length
    requires task.intervals.ValueForInterval(t).None?
    ensures ContractOutcome(task, c, x, sol) == Failure(NoValuePresent)
  {
  }

  // ---------------------------------------------------------------------------------------
  // Storages

  /**
   * The mode of one interval: +1 for a charge above the numerical zero, -1 for a discharge
   * above it, and the sum read as charging, discharging or (0) disabled.
   */
  function ModeOf(charge: real, discharge: real, numericalZero: real): (m: StorageMode)
    ensures m == Charging <==> charge > numericalZero && discharge <= numericalZero
    ensures m == Discharging <==> discharge > numericalZero && charge <= numericalZero
    ensures m == Disabled <==> (charge > numericalZero <==> discharge > numericalZero)
  {
    var chargeIndicator := if charge > numericalZero then 1 else 0;
    var dischargeIndicator := if discharge > numericalZero then -1 else 0;
    var mode := chargeIndicator + dischargeIndicator;
    if mode == 1 then Charging else if mode == -1 then Discharging else Disabled
  }

  /** The storage's blocks hold solution values. */
  predicate StorageBlocksPresent(x: StorageIndexes, horizon: nat, sol: map<int, real>) {
    (forall k :: x.charge <= k < x.charge + horizon ==> k in sol)
    && (forall k :: x.discharge <= k < x.discharge + horizon ==> k in sol)
    && (forall k :: x.energy <= k < x.energy + horizon ==> k in sol)
  }

  /** One storage's result: its three blocks as profiles from interval 0, and the mode per interval. */
  function StorageOutcome(s: Storage, x: StorageIndexes, horizon: nat, sol: map<int, real>, numericalZero: real): R.StorageResult
    requires StorageBlocksPresent(x, horizon, sol)
  {
    var charge := Slice(sol, x.charge, x.charge + horizon);
    var discharge := Slice(sol, x.discharge, x.discharge + horizon);
    SliceOfPresent(sol, x.charge, x.charge + horizon);
    SliceOfPresent(sol, x.discharge, x.discharge + horizon);
    R.StorageResult(s.id, s.name, Profile(0, charge), Profile(0, discharge),
                  Profile(0, Slice(sol, x.energy, x.energy + horizon)),
                  Profile(0, seq(horizon, i requires 0 <= i < horizon => ModeOf(charge[i], discharge[i], numericalZero))))
  }

  /**
   * The decoded storage lists, per interval of the horizon, the charge, discharge and energy
   * columns' values, and the mode read from charge and discharge.
   */
  lemma StorageDecoded(s: Storage, x: StorageIndexes, horizon: nat, sol: map<int, real>, numericalZero: real)
    requires StorageBlocksPresent(x, horizon, sol)
    ensures var r := StorageOutcome(s, x, horizon, sol, numericalZero);
            && r.id == s.id && r.name == s.name
            && r.charge.startInterval == r.discharge.startInterval == r.energy.startInterval == r.storageMode.startInterval == 0
            && |r.charge.values| == |r.discharge.values| == |r.energy.values| == |r.storageMode.values| == horizon
            && forall t :: 0 <= t < horizon ==>
                 && r.charge.values[t] == sol[x.charge + t]
                 && r.discharge.values[t] == sol[x.discharge + t]
                 && r.energy.values[t] == sol[x.energy + t]
                 && r.storageMode.values[t] == ModeOf(sol[x.charge + t], sol[x.discharge + t], numericalZero)
  {
    SliceOfPresent(sol, x.charge, x.charge + horizon);
    SliceOfPresent(sol, x.discharge, x.discharge + horizon);
    SliceOfPresent(sol, x.energy, x.energy + horizon);
  }

  // ---------------------------------------------------------------------------------------
  // Movable demands

  /** The `toMap(variantIndicator -> startInterval)` of one demand's variants. */
  function IndicatorStarts(vs: seq<VariantIndexes>): map<int, int>
    decreases |vs|
  {
    if vs == [] then map[]
    else IndicatorStarts(vs[..|vs| - 1])[vs[|vs| - 1].variantIndicator := vs[|vs| - 1].startInterval]
  }

  predicate DistinctIndicators(vs: seq<VariantIndexes>) {
    forall a, b :: 0 <= a < b < |vs| ==> vs[a].variantIndicator != vs[b].variantIndicator
  }

  /** The map holds each variant's start under its indicator column, and nothing else. */
  lemma {:induction false} IndicatorStartsOf(vs: seq<VariantIndexes>)
    requires DistinctIndicators(vs)
    ensures forall k :: k in IndicatorStarts(vs) <==> k in VariantIndicators(vs)
    ensures forall j :: 0 <= j < |vs| ==> IndicatorStarts(vs)[vs[j].variantIndicator] == vs[j].startInterval
    decreases |vs|
  {
    if vs != [] {
      var init := vs[..|vs| - 1];
      assert forall j :: 0 <= j < |init| ==> init[j] == vs[j];
      IndicatorStartsOf(init);
      assert VariantIndicators(vs) == VariantIndicators(init) + {vs[|vs| - 1].variantIndicator} by {
        assert vs == init + [vs[|vs| - 1]];
      }
    }
  }

  /**
   * `findFirst` over the solution's columns from k upwards (ascending, because `getSolution`
   * collects them into a `TreeMap`): the start of the first indicator column whose value is
   * exactly 1, or -1.
   */
  function FirstChosen(sol: map<int, real>, starts: map<int, int>, k: int, hi: int): int
    decreases hi - k
  {
    if k >= hi then -1
    else if k in sol && k in starts && sol[k] == 1.0 then starts[k]
    else FirstChosen(sol, starts, k + 1, hi)
  }

  /** The scan returns the start of the lowest indicator column at 1 in the range. */
  lemma {:induction false} FirstChosenFindsLowest(sol: map<int, real>, starts: map<int, int>, k: int, hi: int, chosen: int)
    requires k <= chosen < hi && chosen in sol && chosen in starts && sol[chosen] == 1.0
    requires forall j :: k <= j < chosen && j in sol && j in starts ==> sol[j] != 1.0
    ensures FirstChosen(sol, starts, k, hi) == starts[chosen]
    decreases hi - k
  {
    if k != chosen {
      FirstChosenFindsLowest(sol, starts, k + 1, hi, chosen);
    }
  }

  /** With some indicator at 1 in the range, the scan returns the start of a lowest one. */
  lemma {:induction false} FirstChosenSome(sol: map<int, real>, starts: map<int, int>, k: int, hi: int, c: int)
    requires k <= c < hi && c in sol && c in starts && sol[c] == 1.0
    ensures exists m :: k <= m <= c && m in sol && m in starts && sol[m] == 1.0
                        && FirstChosen(sol, starts, k, hi) == starts[m]
                        && (forall j :: k <= j < m && j in sol && j in starts ==> sol[j] != 1.0)
    decreases hi - k
  {
    if !(k in sol && k in starts && sol[k] == 1.0) {
      FirstChosenSome(sol, starts, k + 1, hi, c);
      var m :| k + 1 <= m <= c && m in sol && m in starts && sol[m] == 1.0
               && FirstChosen(sol, starts, k + 1, hi) == starts[m]
               && (forall j :: k + 1 <= j < m && j in sol && j in starts ==> sol[j] != 1.0);
      assert FirstChosen(sol, starts, k, hi) == starts[m];
    }
  }

  /** With no indicator at 1 in the range, the scan returns -1. */
  lemma {:induction false} FirstChosenNone(sol: map<int, real>, starts: map<int, int>, k: int, hi: int)
    requires forall j :: k <= j < hi && j in sol && j in starts ==> sol[j] != 1.0
    ensures FirstChosen(sol, starts, k, hi) == -1
    decreases hi - k
  {
    if k < hi {
      FirstChosenNone(sol, starts, k + 1, hi);
    }
  }

  /** One movable demand's result, the solution's columns being 1..ncols. */
  function MovableOutcome(d: MovableDemand, vs: seq<VariantIndexes>, sol: map<int, real>, ncols: nat): R.MovableDemandResult {
    R.MovableDemandResult(d.id, d.name, FirstChosen(sol, IndicatorStarts(vs), 1, ncols + 1))
  }

  /** Variant j's indicator is 1 and no variant at 1 has a lower indicator column. */
  predicate LowestChosen(vs: seq<VariantIndexes>, sol: map<int, real>, j: int)
    requires forall i :: 0 <= i < |vs| ==> vs[i].variantIndicator in sol
  {
    && 0 <= j < |vs| && sol[vs[j].variantIndicator] == 1.0
    && forall i :: 0 <= i < |vs| && sol[vs[i].variantIndicator] == 1.0 ==> vs[j].variantIndicator <= vs[i].variantIndicator
  }

  /** The facts about a demand's indicators that decoding relies on. */
  ghost predicate IndicatorsInSolution(vs: seq<VariantIndexes>, sol: map<int, real>, ncols: nat) {
    && DistinctIndicators(vs)
    && (forall k :: k in sol <==> 1 <= k <= ncols)
    && (forall j :: 0 <= j < |vs| ==> 1 <= vs[j].variantIndicator <= ncols)
  }

  /** The lowest indicator at 1 is the one the scan finds. */
  lemma MovableLowest(vs: seq<VariantIndexes>, sol: map<int, real>, ncols: nat, j: int)
    requires IndicatorsInSolution(vs, sol, ncols) && LowestChosen(vs, sol, j)
    ensures FirstChosen(sol, IndicatorStarts(vs), 1, ncols + 1) == vs[j].startInterval
  {
    var starts := IndicatorStarts(vs);
    IndicatorStartsOf(vs);
    var chosen := vs[j].variantIndicator;
    forall k | 1 <= k < chosen && k in sol && k in starts
      ensures sol[k] != 1.0
    {
      var i :| 0 <= i < |vs| && vs[i].variantIndicator == k;
    }
    FirstChosenFindsLowest(sol, starts, 1, ncols + 1, chosen);
  }

  /** When some indicator is 1, a lowest one exists and the scan gives its start. */
  lemma MovableSomeChosen(vs: seq<VariantIndexes>, sol: map<int, real>, ncols: nat, j0: int)
    requires IndicatorsInSolution(vs, sol, ncols) && 0 <= j0 < |vs| && sol[vs[j0].variantIndicator] == 1.0
    ensures exists j :: LowestChosen(vs, sol, j) && FirstChosen(sol, IndicatorStarts(vs), 1, ncols + 1) == vs[j].startInterval
  {
    var starts := IndicatorStarts(vs);
    IndicatorStartsOf(vs);
    FirstChosenSome(sol, starts, 1, ncols + 1, vs[j0].variantIndicator);
    var m :| 1 <= m <= vs[j0].variantIndicator && m in sol && m in starts && sol[m] == 1.0
             && FirstChosen(sol, starts, 1, ncols + 1) == starts[m]
             && (forall k :: 1 <= k < m && k in sol && k in starts ==> sol[k] != 1.0);
    var j :| 0 <= j < |vs| && vs[j].variantIndicator == m;
    assert LowestChosen(vs, sol, j);
  }

  /** When no indicator is 1, the scan gives -1. */
  lemma MovableNoneChosen(vs: seq<VariantIndexes>, sol: map<int, real>, ncols: nat)
    requires IndicatorsInSolution(vs, sol, ncols)
    requires forall j :: 0 <= j < |vs| ==> sol[vs[j].variantIndicator] != 1.0
    ensures FirstChosen(sol, IndicatorStarts(vs), 1, ncols + 1) == -1
  {
    var starts := IndicatorStarts(vs);
    IndicatorStartsOf(vs);
    forall k | 1 <= k < ncols + 1 && k in sol && k in starts
      ensures sol[k] != 1.0
    {
      var i :| 0 <= i < |vs| && vs[i].variantIndicator == k;
    }
    FirstChosenNone(sol, starts, 1, ncols + 1);
  }

  /**
   * The decoded start interval: the start of the variant with the lowest indicator column
   * among those whose indicator is 1 (so the start of the one such variant when exactly one
   * is), and -1 when none is.
   */
  lemma MovableDecoded(d: MovableDemand, vs: seq<VariantIndexes>, sol: map<int, real>, ncols: nat)
    requires DistinctIndicators(vs)
    requires forall k :: k in sol <==> 1 <= k <= ncols
    requires forall j :: 0 <= j < |vs| ==> 1 <= vs[j].variantIndicator <= ncols
    ensures MovableOutcome(d, vs, sol, ncols).id == d.id && MovableOutcome(d, vs, sol, ncols).name == d.name
    ensures forall j :: LowestChosen(vs, sol, j) ==> MovableOutcome(d, vs, sol, ncols).startInterval == vs[j].startInterval
    ensures (exists j :: 0 <= j < |vs| && sol[vs[j].variantIndicator] == 1.0)
              ==> exists j :: LowestChosen(vs, sol, j) && MovableOutcome(d, vs, sol, ncols).startInterval == vs[j].startInterval
    ensures forall j :: 0 <= j < |vs| && sol[vs[j].variantIndicator] == 1.0
                        && (forall i :: 0 <= i < |vs| && i != j ==> sol[vs[i].variantIndicator] != 1.0)
              ==> MovableOutcome(d, vs, sol, ncols).startInterval == vs[j].startInterval
    ensures (forall j :: 0 <= j < |vs| ==> sol[vs[j].variantIndicator] != 1.0)
              ==> MovableOutcome(d, vs, sol, ncols).startInterval == -1
  {
    assert IndicatorsInSolution(vs, sol, ncols);
    forall j | LowestChosen(vs, sol, j)
      ensures MovableOutcome(d, vs, sol, ncols).startInterval == vs[j].startInterval
    {
      MovableLowest(vs, sol, ncols, j);
    }
    if j0 :| 0 <= j0 < |vs| && sol[vs[j0].variantIndicator] == 1.0 {
      MovableSomeChosen(vs, sol, ncols, j0);
    }
    forall j | 0 <= j < |vs| && sol[vs[j].variantIndicator] == 1.0
               && (forall i :: 0 <= i < |vs| && i != j ==> sol[vs[i].variantIndicator] != 1.0)
      ensures LowestChosen(vs, sol, j)
    {
    }
    if forall j :: 0 <= j < |vs| ==> sol[vs[j].variantIndicator] != 1.0 {
      MovableNoneChosen(vs, sol, ncols);
    }
  }

  // ---------------------------------------------------------------------------------------
  // All entities

  /** The contract results decoded so far, and the exception that stopped the loop, if any. */
  datatype Decoded = Decoded(results: seq<R.ContractResult>, failure: Option<Exception>)

  /** Outcomes taken in order until the first exception: the results before it, and the exception. */
  function Collect(os: seq<Result<R.ContractResult, Exception>>): (d: Decoded)
    ensures |d.results| <= |os|
    ensures d.failure.None? ==> |d.results| == |os|
  {
    if os == [] then Decoded([], None)
    else match os[0]
         case Failure(e) => Decoded([], Some(e))
         case Success(r) =>
           var rest := Collect(os[1..]);
           Decoded([r] + rest.results, rest.failure)
  }

  /** Without an exception, result i is outcome i. */
  lemma {:induction false} CollectEach(os: seq<Result<R.ContractResult, Exception>>)
    requires Collect(os).failure.None?
    ensures forall i :: 0 <= i < |os| ==> os[i] == Success(Collect(os).results[i])
  {
    if os != [] {
      var d, rest := Collect(os), Collect(os[1..]);
      assert os[0].Success? && d.results == [os[0].value] + rest.results;
      CollectEach(os[1..]);
      forall i | 0 <= i < |os|
        ensures os[i] == Success(d.results[i])
      {
        if i > 0 {
          assert os[i] == os[1..][i - 1];
        }
      }
    }
  }

  /** An exception is the outcome right after the results, all of which are outcomes. */
  lemma {:induction false} CollectFailure(os: seq<Result<R.ContractResult, Exception>>)
    requires Collect(os).failure.Some?
    ensures var d := Collect(os);
            var n := |d.results|;
            && n < |os|
            && os[n] == Failure(d.failure.value)
            && forall i :: 0 <= i < n ==> os[i] == Success(d.results[i])
  {
    var d := Collect(os);
    if os[0].Success? {
      var rest := Collect(os[1..]);
      assert d.results == [os[0].value] + rest.results && d.failure == rest.failure;
      CollectFailure(os[1..]);
      assert os[|d.results|] == os[1..][|rest.results|];
      forall i | 0 <= i < |d.results|
        ensures os[i] == Success(d.results[i])
      {
        if i > 0 {
          assert os[i] == os[1..][i - 1];
        }
      }
    }
  }

  /** The converse of CollectEach and CollectFailure: those two facts determine the collection. */
  lemma {:induction false} CollectOf(os: seq<Result<R.ContractResult, Exception>>, results: seq<R.ContractResult>,
                                     failure: Option<Exception>)
    requires |results| <= |os|
    requires forall j :: 0 <= j < |results| ==> os[j] == Success(results[j])
    requires failure.None? ==> |results| == |os|
    requires failure.Some? ==> |results| < |os| && os[|results|] == Failure(failure.value)
    ensures Collect(os) == Decoded(results, failure)
  {
    if os != [] && results != [] {
      forall j | 0 <= j < |results[1..]|
        ensures os[1..][j] == Success(results[1..][j])
      {
        assert os[1..][j] == os[j + 1];
      }
      if failure.Some? {
        assert os[1..][|results[1..]|] == os[|results|];
      }
      CollectOf(os[1..], results[1..], failure);
      assert [results[0]] + results[1..] == results;
    }
  }

  /** Each contract's outcome, in the task's order. */
  function ContractOutcomes(task: Task, cs: seq<Contract>, xs: seq<ContractIndexes>, sol: map<int, real>)
    : seq<Result<R.ContractResult, Exception>>
    requires |cs| == |xs|
  {
    seq(|cs|, i requires 0 <= i < |cs| => ContractOutcome(task, cs[i], xs[i], sol))
  }

  /** `getContractsResults`: contract by contract, stopping at the first exception. */
  function DecodeContracts(task: Task, cs: seq<Contract>, xs: seq<ContractIndexes>, sol: map<int, real>): (d: Decoded)
    requires |cs| == |xs|
    ensures |d.results| <= |cs|
    ensures d.failure.None? ==> |d.results| == |cs|
  {
    Collect(ContractOutcomes(task, cs, xs, sol))
  }

  /** Without an exception, result i is the outcome of contract i. */
  lemma DecodeContractsEach(task: Task, cs: seq<Contract>, xs: seq<ContractIndexes>, sol: map<int, real>)
    requires |cs| == |xs| && DecodeContracts(task, cs, xs, sol).failure.None?
    ensures forall i :: 0 <= i < |cs| ==> ContractOutcome(task, cs[i], xs[i], sol) == Success(DecodeContracts(task, cs, xs, sol).results[i])
  {
    CollectEach(ContractOutcomes(task, cs, xs, sol));
  }

  /** The loop stops at the first contract that cannot be decoded, keeping the results before it. */
  lemma DecodeContractsFailure(task: Task, cs: seq<Contract>, xs: seq<ContractIndexes>, sol: map<int, real>)
    requires |cs| == |xs| && DecodeContracts(task, cs, xs, sol).failure.Some?
    ensures var d := DecodeContracts(task, cs, xs, sol);
            var n := |d.results|;
            && n < |cs|
            && ContractOutcome(task, cs[n], xs[n], sol) == Failure(d.failure.value)
            && forall i :: 0 <= i < n ==> ContractOutcome(task, cs[i], xs[i], sol) == Success(d.results[i])
  {
    CollectFailure(ContractOutcomes(task, cs, xs, sol));
  }

  /**
   * The converse of DecodeContractsEach and DecodeContractsFailure: results that are the
   * outcomes of the first contracts, followed by nothing or by the exception of the next one,
   * are what the decoding gives.
   */
  lemma DecodeContractsOf(task: Task, cs: seq<Contract>, xs: seq<ContractIndexes>, sol: map<int, real>,
                          results: seq<R.ContractResult>, failure: Option<Exception>)
    requires |cs| == |xs| && |results| <= |cs|
    requires forall j :: 0 <= j < |results| ==> ContractOutcome(task, cs[j], xs[j], sol) == Success(results[j])
    requires failure.None? ==> |results| == |cs|
    requires failure.Some? ==> |results| < |cs| && ContractOutcome(task, cs[|results|], xs[|results|], sol) == Failure(failure.value)
    ensures DecodeContracts(task, cs, xs, sol) == Decoded(results, failure)
  {
    CollectOf(ContractOutcomes(task, cs, xs, sol), results, failure);
  }

  /** Every column of an allocated layout is a key of the solution of a model with those columns. */
  lemma StorageBlocksInSolution(task: Task, layout: Layout, ncols: nat, values: int -> real)
    requires Allocated(task, layout, 1, ncols + 1)
    ensures forall s :: 0 <= s < |layout.storages| ==>
              StorageBlocksPresent(layout.storages[s], task.OptimizationHorizonLength(), SolutionMap(ncols, values))
  {
    var horizon := task.OptimizationHorizonLength();
    var spans := LayoutSpans(layout, horizon);
    SpanPositions(task, layout);
    var sol := SolutionMap(ncols, values);
    forall s | 0 <= s < |layout.storages|
      ensures StorageBlocksPresent(layout.storages[s], horizon, sol)
    {
      forall k | layout.storages[s].charge <= k < layout.storages[s].charge + 4 * horizon
        ensures k in sol
      {
        Inside(spans, 1, ncols + 1, |layout.contracts| + s, k);
      }
    }
  }

  /** `getStoragesResults`. */
  function StorageResults(task: Task, layout: Layout, ncols: nat, values: int -> real, numericalZero: real): (rs: seq<R.StorageResult>)
    requires Allocated(task, layout, 1, ncols + 1)
    ensures |rs| == |task.storages|
  {
    StorageBlocksInSolution(task, layout, ncols, values);
    seq(|task.storages|, s requires 0 <= s < |task.storages| =>
      StorageOutcome(task.storages[s], layout.storages[s], task.OptimizationHorizonLength(), SolutionMap(ncols, values), numericalZero))
  }

  /** Storage result s lists the values of storage s's columns and the modes they give. */
  lemma StorageResultOf(task: Task, layout: Layout, ncols: nat, values: int -> real, numericalZero: real, s: nat)
    requires Allocated(task, layout, 1, ncols + 1) && s < |task.storages|
    ensures var r := StorageResults(task, layout, ncols, values, numericalZero)[s];
            var x := layout.storages[s];
            var horizon := task.OptimizationHorizonLength();
            && r.id == task.storages[s].id && r.name == task.storages[s].name
            && |r.charge.values| == |r.discharge.values| == |r.energy.values| == |r.storageMode.values| == horizon
            && forall t :: 0 <= t < horizon ==>
                 && r.charge.values[t] == values(x.charge + t)
                 && r.discharge.values[t] == values(x.discharge + t)
                 && r.energy.values[t] == values(x.energy + t)
                 && r.storageMode.values[t] == ModeOf(values(x.charge + t), values(x.discharge + t), numericalZero)
  {
    var horizon := task.OptimizationHorizonLength();
    var sol := SolutionMap(ncols, values);
    StorageBlocksInSolution(task, layout, ncols, values);
    StorageDecoded(task.storages[s], layout.storages[s], horizon, sol, numericalZero);
  }

  /** `getMovableDemandResults`. */
  function MovableResults(task: Task, layout: Layout, ncols: nat, values: int -> real): (rs: seq<R.MovableDemandResult>)
    requires Shaped(task, layout)
    ensures |rs| == |task.movableDemands|
  {
    seq(|task.movableDemands|, d requires 0 <= d < |task.movableDemands| =>
      MovableOutcome(task.movableDemands[d], layout.variants[d], SolutionMap(ncols, values), ncols))
  }

  /** The indicators of one demand's variants are distinct columns of the model. */
  lemma LayoutIndicators(task: Task, layout: Layout, ncols: nat, d: nat)
    requires Allocated(task, layout, 1, ncols + 1) && d < |layout.variants|
    ensures DistinctIndicators(layout.variants[d])
    ensures forall j :: 0 <= j < |layout.variants[d]| ==> 1 <= layout.variants[d][j].variantIndicator <= ncols
  {
    var spans := LayoutSpans(layout, task.OptimizationHorizonLength());
    var vs := layout.variants[d];
    var n := |layout.contracts| + |layout.storages|;
    assert VariantsOf(vs, task.movableDemands[d], task.OptimizationHorizonLength());
    forall j | 0 <= j < |vs|
      ensures 1 <= vs[j].variantIndicator <= ncols
    {
      VariantSpanPosition(task, layout, d, j);
      Inside(spans, 1, ncols + 1, n + VariantPosition(layout.variants, d, j), vs[j].variantIndicator);
    }
    forall a, b | 0 <= a < b < |vs|
      ensures vs[a].variantIndicator != vs[b].variantIndicator
    {
      VariantSpanPosition(task, layout, d, a);
      VariantSpanPosition(task, layout, d, b);
      Separate(spans, 1, ncols + 1, n + VariantPosition(layout.variants, d, a), n + VariantPosition(layout.variants, d, b),
               vs[a].variantIndicator, vs[b].variantIndicator);
    }
  }
}
