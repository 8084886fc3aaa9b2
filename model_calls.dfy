/**
 * What the model builder of service/OptimizerImpl asks of the solver once the columns are
 * allocated: the calls of each `setUp*` method, in order, as functions of the task and the
 * layout. The builder's methods are proved to perform exactly these calls.
 */
module ModelCalls {
  import opened Wrappers
  import opened Seqs
  import opened Exceptions
  import opened SolverModel
  import opened Profiles
  import opened SumConstraints
  import opened Contracts
  import opened Storages
  import opened MovableDemands
  import opened Tasks
  import opened Layouts

  // ---------------------------------------------------------------------------------------
  // setUpPowerBalance

  /** The balance right-hand side: demand minus production, a missing value read as 0. */
  function BalanceRhs(task: Task, t: int): real {
    -1.0 * task.production.profile.ValueForInterval(t).GetOr(0.0) + task.demand.profile.ValueForInterval(t).GetOr(0.0)
  }

  /** Purchased power enters the balance positively, sold power negatively. */
  function DirectionWeight(c: Contract): real {
    if c.contractDirection == Purchase then 1.0 else -1.0
  }

  /** The column the balance row and the objective use for contract power at interval t. */
  function PowerColumn(c: Contract, x: ContractIndexes, t: int): int {
    x.power + t - c.StartInterval()
  }

  function ContractBalanceEntries(task: Task, layout: Layout, t: int): (es: seq<Option<(int, real)>>)
    requires Shaped(task, layout)
    ensures |es| == |task.contracts|
  {
    seq(|task.contracts|, i requires 0 <= i < |task.contracts| =>
      var c := task.contracts[i];
      if c.IsActiveAt(t) then Some((PowerColumn(c, layout.contracts[i], t), DirectionWeight(c))) else None)
  }

  function ChargeBalanceEntries(layout: Layout, t: int): (es: seq<Option<(int, real)>>)
    ensures |es| == |layout.storages|
  {
    seq(|layout.storages|, i requires 0 <= i < |layout.storages| => Some((layout.storages[i].charge + t, -1.0)))
  }

  function DischargeBalanceEntries(layout: Layout, t: int): (es: seq<Option<(int, real)>>)
    ensures |es| == |layout.storages|
  {
    seq(|layout.storages|, i requires 0 <= i < |layout.storages| => Some((layout.storages[i].discharge + t, 1.0)))
  }

  /** The variant whose placement covers t draws its power from the balance. */
  predicate Covers(v: VariantIndexes, t: int) {
    v.startInterval <= t < v.startInterval + v.length
  }

  function VariantBalanceEntries(vs: seq<VariantIndexes>, t: int): (es: seq<Option<(int, real)>>)
    ensures |es| == |vs|
  {
    seq(|vs|, j requires 0 <= j < |vs| =>
      if Covers(vs[j], t) then Some((vs[j].power + t - vs[j].startInterval, -1.0)) else None)
  }

  function MovableBalanceEntries(layout: Layout, t: int): seq<Option<(int, real)>> {
    Concat(seq(|layout.variants|, d requires 0 <= d < |layout.variants| => VariantBalanceEntries(layout.variants[d], t)))
  }

  /** The puts that build the balance weights of interval t: contracts, charges, discharges, variants. */
  function BalanceEntries(task: Task, layout: Layout, t: int): seq<Option<(int, real)>>
    requires Shaped(task, layout)
  {
    ContractBalanceEntries(task, layout, t) + ChargeBalanceEntries(layout, t)
    + DischargeBalanceEntries(layout, t) + MovableBalanceEntries(layout, t)
  }

  function BalanceWeights(task: Task, layout: Layout, t: int): map<int, real>
    requires Shaped(task, layout)
  {
    PutEntries(map[], BalanceEntries(task, layout, t))
  }

  function BalanceCall(task: Task, layout: Layout, t: int): Call
    requires Shaped(task, layout)
  {
    WeightedSum(BalanceWeights(task, layout, t), Eq, BalanceRhs(task, t))
  }

  /** One balance equality per interval of the horizon. */
  function BalanceCalls(task: Task, layout: Layout): (calls: seq<Call>)
    requires Shaped(task, layout)
    ensures |calls| == task.OptimizationHorizonLength()
  {
    seq(task.OptimizationHorizonLength(), t requires 0 <= t < task.OptimizationHorizonLength() => BalanceCall(task, layout, t))
  }

  // ---------------------------------------------------------------------------------------
  // setUpContractsConstraints

  /** The interval a column of a block starting at `first` stands for. */
  function IntervalOf(column: int, first: int): int {
    column - first
  }

  /** A contract power bound map: keys inside the horizon, moved by the first power column. */
  function PowerBounds(bounds: map<int, real>, power: int, horizon: int): map<int, real> {
    map j | power <= j < power + horizon && IntervalOf(j, power) in bounds :: bounds[IntervalOf(j, power)]
  }

  function ContractPowerCalls(c: Contract, x: ContractIndexes, horizon: int): seq<Call> {
    (if c.minPowerConstraints.Some? then [LowerBounds(PowerBounds(c.minPowerConstraints.value, x.power, horizon))] else [])
    + (if c.maxPowerConstraints.Some? then [UpperBounds(PowerBounds(c.maxPowerConstraints.value, x.power, horizon))] else [])
  }

  /** An interval of the horizon inside the energy constraint's range. */
  predicate InRange(sc: SumConstraint, horizon: int, t: int) {
    0 <= t < horizon && sc.startInterval <= t <= sc.endInterval
  }

  /** The weights of an energy row: the power column `power + t` of each interval in range, weighted by its duration. */
  function EnergyWeights(sc: SumConstraint, power: int, intervals: Profile<real>, horizon: int): map<int, real>
    requires forall t | 0 <= t < horizon :: InRange(sc, horizon, t) ==> intervals.ValueForInterval(t).Some?
  {
    map j | power <= j < power + horizon && InRange(sc, horizon, IntervalOf(j, power))
          :: intervals.ValueForInterval(IntervalOf(j, power)).value
  }

  /** One energy row; a missing duration makes `orElseThrow` fail first. */
  function EnergyCall(sc: SumConstraint, power: int, intervals: Profile<real>, horizon: int, sense: Sense): Call {
    if exists t | 0 <= t < horizon :: InRange(sc, horizon, t) && intervals.ValueForInterval(t).None? then Throw(NoValuePresent)
    else WeightedSum(EnergyWeights(sc, power, intervals, horizon), sense, sc.sum)
  }

  function EnergyCalls(scs: seq<ValidSumConstraint>, power: int, intervals: Profile<real>, horizon: int, sense: Sense): (calls: seq<Call>)
    ensures |calls| == |scs|
  {
    seq(|scs|, j requires 0 <= j < |scs| => EnergyCall(scs[j], power, intervals, horizon, sense))
  }

  function ContractEnergyCalls(c: Contract, x: ContractIndexes, intervals: Profile<real>, horizon: int): seq<Call> {
    (if c.minEnergyConstraints.Some? then EnergyCalls(c.minEnergyConstraints.value, x.power, intervals, horizon, Ge) else [])
    + (if c.maxEnergyConstraints.Some? then EnergyCalls(c.maxEnergyConstraints.value, x.power, intervals, horizon, Le) else [])
  }

  function OneContractCalls(task: Task, c: Contract, x: ContractIndexes): seq<Call> {
    ContractPowerCalls(c, x, task.OptimizationHorizonLength())
    + ContractEnergyCalls(c, x, task.intervals, task.OptimizationHorizonLength())
  }

  function ContractCallGroups(task: Task, layout: Layout): (groups: seq<seq<Call>>)
    requires Shaped(task, layout)
    ensures |groups| == |task.contracts|
  {
    seq(|task.contracts|, i requires 0 <= i < |task.contracts| => OneContractCalls(task, task.contracts[i], layout.contracts[i]))
  }

  // ---------------------------------------------------------------------------------------
  // setUpStoragesConstraints

  /** The big M of the mode rows: a hundred times the larger of the two power limits. */
  function BigM(s: Storage): real {
    MaxReal(s.maxCharge, s.maxDischarge) * 100.0
  }

  /** Energy balance of interval 0 against the initial energy. */
  function FirstBalanceCall(s: Storage, x: StorageIndexes, d0: real): Call {
    WeightedSum(map[x.energy := -1.0][x.charge := 1.0 * d0][x.discharge := -1.0 * d0], Eq, -1.0 * s.initialEnergy)
  }

  /** Energy balance of interval t >= 1 against interval t - 1. */
  function NextBalanceCall(x: StorageIndexes, t: int, dt: real): Call {
    WeightedSum(map[x.energy + t - 1 := 1.0][x.energy + t := -1.0][x.charge + t := 1.0 * dt][x.discharge + t := -1.0 * dt], Eq, 0.0)
  }

  /** `setUpStorageEnergyBalance`; an empty horizon fails at `intervalsDuration.get(0)`. */
  function EnergyBalanceCalls(s: Storage, x: StorageIndexes, durations: seq<real>): (calls: seq<Call>)
    ensures |durations| == 0 ==> calls == [Throw(IndexOutOfBoundsFor(0, 0))]
    ensures |durations| > 0 ==> |calls| == |durations|
  {
    if |durations| == 0 then [Throw(IndexOutOfBoundsFor(0, 0))]
    else [FirstBalanceCall(s, x, durations[0])]
         + seq(|durations| - 1, j requires 0 <= j < |durations| - 1 => NextBalanceCall(x, j + 1, durations[j + 1]))
  }

  /** Interval t's row of `setUpStorageEnergyBalance`: the initial-energy balance at 0, the link to t - 1 after. */
  lemma EnergyBalanceCallAt(storage: Storage, x: StorageIndexes, durations: seq<real>, t: nat)
    requires t < |durations|
    ensures |EnergyBalanceCalls(storage, x, durations)| == |durations|
    ensures EnergyBalanceCalls(storage, x, durations)[t]
            == if t == 0 then FirstBalanceCall(storage, x, durations[0]) else NextBalanceCall(x, t, durations[t])
  {
    var first := [FirstBalanceCall(storage, x, durations[0])];
    var rest := seq(|durations| - 1, j requires 0 <= j < |durations| - 1 => NextBalanceCall(x, j + 1, durations[j + 1]));
    assert EnergyBalanceCalls(storage, x, durations) == first + rest;
    if t > 0 {
      assert (first + rest)[t] == rest[t - 1];
    }
  }

  /** charge(t) - M * indicator(t) <= 0. */
  function ChargeModeCall(x: StorageIndexes, t: int, bigM: real): Call {
    WeightedSum(map[x.charge + t := 1.0][x.chargeIndicator + t := -1.0 * bigM], Le, 0.0)
  }

  /** discharge(t) + M * indicator(t) <= M. */
  function DischargeModeCall(x: StorageIndexes, t: int, bigM: real): Call {
    WeightedSum(map[x.discharge + t := 1.0][x.chargeIndicator + t := bigM], Le, bigM)
  }

  /** `setUpStorageModeIndicators`: the two rows of each interval. */
  function ModeCallGroups(x: StorageIndexes, horizon: nat, bigM: real): (groups: seq<seq<Call>>)
    ensures |groups| == horizon
  {
    seq(horizon, t requires 0 <= t < horizon => [ChargeModeCall(x, t, bigM), DischargeModeCall(x, t, bigM)])
  }

  /** An explicit bound map, its interval keys moved onto a block (keys are not range-checked). */
  function ShiftKeys(bounds: map<int, real>, first: int): map<int, real> {
    map j | j in (set k | k in bounds :: k + first) :: bounds[IntervalOf(j, first)]
  }

  /** The physical maximum on every interval of the horizon the explicit map leaves out. */
  function DefaultBounds(explicit: map<int, real>, first: int, horizon: nat, maximum: real): map<int, real> {
    map j | first <= j < first + horizon && IntervalOf(j, first) !in explicit :: maximum
  }

  /** `setUpStorageChargeConstraints` and its discharge and energy siblings. */
  function BoundCalls(minimal: Option<map<int, real>>, maximal: Option<map<int, real>>, first: int, horizon: nat, maximum: real): seq<Call> {
    (if minimal.Some? then [LowerBounds(ShiftKeys(minimal.value, first))] else [])
    + (if maximal.Some?
       then [UpperBounds(ShiftKeys(maximal.value, first)), UpperBounds(DefaultBounds(maximal.value, first, horizon, maximum))]
       else [UpperBounds(DefaultBounds(map[], first, horizon, maximum))])
  }

  function FixEntries(intervals: seq<int>, first: int): seq<(int, real)> {
    seq(|intervals|, j requires 0 <= j < |intervals| => (intervals[j] + first, 0.0))
  }

  /** `setUpStorageForbiddenStates`. */
  function ForbiddenCalls(s: Storage, x: StorageIndexes): seq<Call> {
    (if s.forbiddenChargeIntervals.Some? then [Fix(FixEntries(s.forbiddenChargeIntervals.value, x.charge))] else [])
    + (if s.forbiddenDischargeIntervals.Some? then [Fix(FixEntries(s.forbiddenDischargeIntervals.value, x.discharge))] else [])
  }

  function StorageBoundCalls(s: Storage, x: StorageIndexes, horizon: nat): seq<Call> {
    BoundCalls(s.minChargeConstraints, s.maxChargeConstraints, x.charge, horizon, s.maxCharge)
    + BoundCalls(s.minDischargeConstraints, s.maxDischargeConstraints, x.discharge, horizon, s.maxDischarge)
    + BoundCalls(s.minEnergyConstraints, s.maxEnergyConstraints, x.energy, horizon, s.maxCapacity)
  }

  function OneStorageCalls(task: Task, s: Storage, x: StorageIndexes): seq<Call> {
    var horizon := task.OptimizationHorizonLength();
    EnergyBalanceCalls(s, x, task.intervals.values)
    + Concat(ModeCallGroups(x, horizon, BigM(s)))
    + StorageBoundCalls(s, x, horizon)
    + ForbiddenCalls(s, x)
  }

  function StorageCallGroups(task: Task, layout: Layout): (groups: seq<seq<Call>>)
    requires Shaped(task, layout)
    ensures |groups| == |task.storages|
  {
    seq(|task.storages|, i requires 0 <= i < |task.storages| => OneStorageCalls(task, task.storages[i], layout.storages[i]))
  }

  // ---------------------------------------------------------------------------------------
  // setUpMovableDemandConstraints

  /** power(i) - profile[i] * indicator = 0. */
  function LinkCall(d: MovableDemand, v: VariantIndexes, i: nat): Call
    requires i < |d.profile|
  {
    WeightedSum(map[v.variantIndicator := -1.0 * d.profile[i]][v.power + i := 1.0], Eq, 0.0)
  }

  function LinkCalls(d: MovableDemand, v: VariantIndexes): (calls: seq<Call>)
    requires v.length <= |d.profile|
    ensures |calls| == Width(v.length)
  {
    seq(Width(v.length), i requires 0 <= i < Width(v.length) => LinkCall(d, v, i))
  }

  predicate FitsProfile(d: MovableDemand, vs: seq<VariantIndexes>) {
    forall j :: 0 <= j < |vs| ==> vs[j].length <= |d.profile|
  }

  function LinkCallGroups(d: MovableDemand, vs: seq<VariantIndexes>): (groups: seq<seq<Call>>)
    requires FitsProfile(d, vs)
    ensures |groups| == |vs|
  {
    seq(|vs|, j requires 0 <= j < |vs| => LinkCalls(d, vs[j]))
  }

  /** The link rows of every variant, then "exactly one variant": the indicators sum to 1. */
  function OneMovableCalls(d: MovableDemand, vs: seq<VariantIndexes>): seq<Call>
    requires FitsProfile(d, vs)
  {
    Concat(LinkCallGroups(d, vs)) + [SumCall(VariantIndicators(vs), Eq, 1.0)]
  }

  lemma ShapedFits(task: Task, layout: Layout, k: int)
    requires Shaped(task, layout) && 0 <= k < |task.movableDemands|
    ensures FitsProfile(task.movableDemands[k], layout.variants[k])
  {
    assert VariantsOf(layout.variants[k], task.movableDemands[k], task.OptimizationHorizonLength());
  }

  function MovableCallGroups(task: Task, layout: Layout): (groups: seq<seq<Call>>)
    requires Shaped(task, layout)
    ensures |groups| == |task.movableDemands|
  {
    seq(|task.movableDemands|, k requires 0 <= k < |task.movableDemands| =>
      ShapedFits(task, layout, k);
      OneMovableCalls(task.movableDemands[k], layout.variants[k]))
  }

  // ---------------------------------------------------------------------------------------
  // setUpObjectiveFunction

  /** Purchase costs price times duration per unit of power; sale earns it. */
  function CostCoefficient(c: Contract, intervals: Profile<real>, t: int): real
    requires c.IsActiveAt(t)
  {
    var price := c.unitPrice.ValueForInterval(t).value;
    if c.contractDirection == Purchase then price * intervals.ValueForInterval(t).GetOr(0.0)
    else -1.0 * price * intervals.ValueForInterval(t).GetOr(0.0)
  }

  function ObjectiveEntries(task: Task, c: Contract, x: ContractIndexes): (es: seq<Option<(int, real)>>)
    ensures |es| == task.OptimizationHorizonLength()
  {
    seq(task.OptimizationHorizonLength(), t requires 0 <= t < task.OptimizationHorizonLength() =>
      if c.IsActiveAt(t) then Some((PowerColumn(c, x, t), CostCoefficient(c, task.intervals, t))) else None)
  }

  function ObjectiveEntryGroups(task: Task, layout: Layout): (groups: seq<seq<Option<(int, real)>>>)
    requires Shaped(task, layout)
    ensures |groups| == |task.contracts|
  {
    seq(|task.contracts|, i requires 0 <= i < |task.contracts| => ObjectiveEntries(task, task.contracts[i], layout.contracts[i]))
  }

  function ObjectiveCoefficients(task: Task, layout: Layout): map<int, real>
    requires Shaped(task, layout)
  {
    PutEntries(map[], Concat(ObjectiveEntryGroups(task, layout)))
  }

  // ---------------------------------------------------------------------------------------
  // The whole run

  /** Everything the builder asks after allocation, in the order `solve` calls the `setUp*` methods. */
  function BuildCalls(task: Task, layout: Layout): seq<Call>
    requires Shaped(task, layout)
  {
    BalanceCalls(task, layout)
    + Concat(ContractCallGroups(task, layout))
    + Concat(StorageCallGroups(task, layout))
    + Concat(MovableCallGroups(task, layout))
    + [SetObjective(ObjectiveCoefficients(task, layout))]
  }
}
