/**
 * What the storage, movable-demand and bound rows of service/OptimizerImpl mean for an
 * assignment of the columns: the energy balance makes each energy column the running
 * energy of the storage, the mode rows forbid charging and discharging at once, the link
 * rows copy the profile onto the chosen variant, and "exactly one variant" holds.
 */
module RowMeaning {
  import opened Wrappers
  import opened SolverModel
  import opened Contracts
  import opened Storages
  import opened MovableDemands
  import opened Layouts
  import opened ModelCalls
  import opened Profiles
  import opened SumConstraints

  /** The storage's four blocks are valid columns of a model with ncols columns. */
  predicate StorageColumns(x: StorageIndexes, horizon: nat, ncols: nat) {
    StorageShaped(x, horizon) && 1 <= x.charge && x.charge + 4 * horizon <= ncols + 1
  }

  /** The interval-0 balance row, as real arithmetic over the three column values. */
  lemma FirstBalanceArith(e: real, c: real, dis: real, d0: real, initial: real)
    ensures -1.0 * d0 * dis + (1.0 * d0 * c + (-1.0 * e + 0.0)) == -1.0 * initial <==> e == initial + d0 * (c - dis)
  {
    assert d0 * (c - dis) == d0 * c - d0 * dis;
  }

  /** The interval-0 balance row over three distinct valid columns. */
  lemma FirstBalanceRow(s: Storage, x: StorageIndexes, d0: real, v: int -> real, ncols: nat)
    requires x.energy != x.charge && x.energy != x.discharge && x.charge != x.discharge
    requires 1 <= x.energy <= ncols && 1 <= x.charge <= ncols && 1 <= x.discharge <= ncols
    ensures Satisfies(RowOf(FirstBalanceCall(s, x, d0)), v, ncols)
            <==> v(x.energy) == s.initialEnergy + d0 * (v(x.charge) - v(x.discharge))
  {
    Dot3(x.energy, -1.0, x.charge, 1.0 * d0, x.discharge, -1.0 * d0, v, 1, ncols + 1);
    FirstBalanceArith(v(x.energy), v(x.charge), v(x.discharge), d0, s.initialEnergy);
  }

  /** The interval-0 balance reads energy(0) = initial + d0 * (charge(0) - discharge(0)). */
  lemma FirstBalanceMeaning(s: Storage, x: StorageIndexes, horizon: nat, d0: real, v: int -> real, ncols: nat)
    requires StorageColumns(x, horizon, ncols) && horizon >= 1
    ensures Satisfies(RowOf(FirstBalanceCall(s, x, d0)), v, ncols)
            <==> v(x.energy) == s.initialEnergy + d0 * (v(x.charge) - v(x.discharge))
  {
    FirstBalanceRow(s, x, d0, v, ncols);
  }

  /** The balance row of interval t >= 1, as real arithmetic over the four column values. */
  lemma NextBalanceArith(e0: real, e1: real, c: real, dis: real, dt: real)
    ensures -1.0 * dt * dis + (1.0 * dt * c + (-1.0 * e1 + (1.0 * e0 + 0.0)))
            == e0 - e1 + dt * c - dt * dis
  {
  }

  /** The weighted sum of the balance row of interval t >= 1, over four distinct valid columns. */
  lemma NextBalanceRow(x: StorageIndexes, t: int, dt: real, v: int -> real, ncols: nat)
    requires var e0, e1, c, dis := x.energy + t - 1, x.energy + t, x.charge + t, x.discharge + t;
             e0 != e1 && e0 != c && e0 != dis && e1 != c && e1 != dis && c != dis
             && 1 <= e0 <= ncols && 1 <= e1 <= ncols && 1 <= c <= ncols && 1 <= dis <= ncols
    ensures Dot(NextBalanceCall(x, t, dt).weights, v, 1, ncols + 1)
            == v(x.energy + t - 1) - v(x.energy + t) + dt * v(x.charge + t) - dt * v(x.discharge + t)
  {
    Dot4(x.energy + t - 1, 1.0, x.energy + t, -1.0, x.charge + t, 1.0 * dt, x.discharge + t, -1.0 * dt, v, 1, ncols + 1);
    NextBalanceArith(v(x.energy + t - 1), v(x.energy + t), v(x.charge + t), v(x.discharge + t), dt);
  }

  /** The weighted sum of the balance row of interval t >= 1. */
  lemma NextBalanceSum(x: StorageIndexes, horizon: nat, t: int, dt: real, v: int -> real, ncols: nat)
    requires StorageColumns(x, horizon, ncols) && 1 <= t < horizon
    ensures Dot(NextBalanceCall(x, t, dt).weights, v, 1, ncols + 1)
            == v(x.energy + t - 1) - v(x.energy + t) + dt * v(x.charge + t) - dt * v(x.discharge + t)
  {
    NextBalanceRow(x, t, dt, v, ncols);
  }

  /** The balance equation of interval t >= 1, as real arithmetic. */
  lemma NextBalanceEquation(e0: real, e1: real, c: real, dis: real, dt: real)
    ensures e0 - e1 + dt * c - dt * dis == 0.0 <==> e1 == e0 + dt * (c - dis)
  {
    assert dt * (c - dis) == dt * c - dt * dis;
  }

  /** The balance of interval t >= 1 reads energy(t) = energy(t - 1) + dt * (charge(t) - discharge(t)). */
  lemma NextBalanceMeaning(x: StorageIndexes, horizon: nat, t: int, dt: real, v: int -> real, ncols: nat)
    requires StorageColumns(x, horizon, ncols) && 1 <= t < horizon
    ensures Satisfies(RowOf(NextBalanceCall(x, t, dt)), v, ncols)
            <==> v(x.energy + t) == v(x.energy + t - 1) + dt * (v(x.charge + t) - v(x.discharge + t))
  {
    NextBalanceSum(x, horizon, t, dt, v, ncols);
    NextBalanceEquation(v(x.energy + t - 1), v(x.energy + t), v(x.charge + t), v(x.discharge + t), dt);
  }

  /** The energy held after interval t: the initial energy plus the net charge of intervals 0..t. */
  function StoredEnergy(s: Storage, x: StorageIndexes, durations: seq<real>, v: int -> real, t: nat): real
    requires t < |durations|
  {
    (if t == 0 then s.initialEnergy else StoredEnergy(s, x, durations, v, t - 1))
    + durations[t] * (v(x.charge + t) - v(x.discharge + t))
  }

  /** Every weighted-sum row of the calls holds under v. */
  predicate AllSatisfied(calls: seq<Call>, v: int -> real, ncols: nat) {
    forall r :: 0 <= r < |calls| && calls[r].WeightedSum? ==> Satisfies(RowOf(calls[r]), v, ncols)
  }

  /**
   * `setUpStorageEnergyBalance`: an assignment satisfying the storage's balance rows holds
   * the running stored energy in the energy block, interval by interval.
   */
  lemma {:induction false} EnergyTrajectory(s: Storage, x: StorageIndexes, durations: seq<real>, v: int -> real, ncols: nat, t: nat)
    requires StorageColumns(x, |durations|, ncols) && t < |durations|
    requires AllSatisfied(EnergyBalanceCalls(s, x, durations), v, ncols)
    ensures v(x.energy + t) == StoredEnergy(s, x, durations, v, t)
  {
    var calls := EnergyBalanceCalls(s, x, durations);
    var c, dis, dt := v(x.charge + t), v(x.discharge + t), durations[t];
    EnergyBalanceCallAt(s, x, durations, t);
    assert Satisfies(RowOf(calls[t]), v, ncols) by {
      assert calls[t].WeightedSum?;
    }
    if t == 0 {
      FirstBalanceMeaning(s, x, |durations|, dt, v, ncols);
      assert x.charge + t == x.charge && x.discharge + t == x.discharge && x.energy + t == x.energy;
      StepAgrees(v(x.energy + t), s.initialEnergy, dt, c, dis, StoredEnergy(s, x, durations, v, t));
    } else {
      EnergyTrajectory(s, x, durations, v, ncols, t - 1);
      NextBalanceMeaning(x, |durations|, t, dt, v, ncols);
      StepAgrees(v(x.energy + t), v(x.energy + t - 1), dt, c, dis, StoredEnergy(s, x, durations, v, t));
    }
  }

  /** Two quantities that both add one interval's net charge to the same stored energy agree. */
  lemma StepAgrees(e: real, before: real, dt: real, c: real, dis: real, stored: real)
    requires e == before + dt * (c - dis)
    requires stored == before + dt * (c - dis)
    ensures e == stored
  {
  }

  /**
   * `setUpStorageModeIndicators`: with a positive big M and a binary indicator, the charge
   * row allows charging only in charging mode (indicator 1) and the discharge row allows
   * discharging only outside it, so no interval both charges and discharges.
   */
  lemma ModeRowsExclusive(x: StorageIndexes, horizon: nat, t: int, bigM: real, v: int -> real, ncols: nat)
    requires StorageColumns(x, horizon, ncols) && 0 <= t < horizon && bigM > 0.0
    requires v(x.chargeIndicator + t) == 0.0 || v(x.chargeIndicator + t) == 1.0
    ensures Satisfies(RowOf(ChargeModeCall(x, t, bigM)), v, ncols) <==> v(x.charge + t) <= bigM * v(x.chargeIndicator + t)
    ensures Satisfies(RowOf(DischargeModeCall(x, t, bigM)), v, ncols)
            <==> v(x.discharge + t) <= bigM * (1.0 - v(x.chargeIndicator + t))
    ensures Satisfies(RowOf(ChargeModeCall(x, t, bigM)), v, ncols) && Satisfies(RowOf(DischargeModeCall(x, t, bigM)), v, ncols)
            ==> !(v(x.charge + t) > 0.0 && v(x.discharge + t) > 0.0)
  {
    ModeRows(x, t, bigM, v, ncols);
  }

  /** The two mode rows of interval t over three distinct valid columns. */
  lemma ModeRows(x: StorageIndexes, t: int, bigM: real, v: int -> real, ncols: nat)
    requires var c, dis, ind := x.charge + t, x.discharge + t, x.chargeIndicator + t;
             c != dis && c != ind && dis != ind && 1 <= c <= ncols && 1 <= dis <= ncols && 1 <= ind <= ncols
    requires bigM > 0.0 && (v(x.chargeIndicator + t) == 0.0 || v(x.chargeIndicator + t) == 1.0)
    ensures Satisfies(RowOf(ChargeModeCall(x, t, bigM)), v, ncols) <==> v(x.charge + t) <= bigM * v(x.chargeIndicator + t)
    ensures Satisfies(RowOf(DischargeModeCall(x, t, bigM)), v, ncols)
            <==> v(x.discharge + t) <= bigM * (1.0 - v(x.chargeIndicator + t))
    ensures Satisfies(RowOf(ChargeModeCall(x, t, bigM)), v, ncols) && Satisfies(RowOf(DischargeModeCall(x, t, bigM)), v, ncols)
            ==> !(v(x.charge + t) > 0.0 && v(x.discharge + t) > 0.0)
  {
    Dot2(x.charge + t, 1.0, x.chargeIndicator + t, -1.0 * bigM, v, 1, ncols + 1);
    Dot2(x.discharge + t, 1.0, x.chargeIndicator + t, bigM, v, 1, ncols + 1);
    ModeArith(v(x.charge + t), v(x.discharge + t), v(x.chargeIndicator + t), bigM);
  }

  /** The two mode rows as real arithmetic over a 0/1 indicator. */
  lemma ModeArith(c: real, dis: real, ind: real, bigM: real)
    requires bigM > 0.0 && (ind == 0.0 || ind == 1.0)
    ensures -1.0 * bigM * ind + (1.0 * c + 0.0) <= 0.0 <==> c <= bigM * ind
    ensures bigM * ind + (1.0 * dis + 0.0) <= bigM <==> dis <= bigM * (1.0 - ind)
    ensures c <= bigM * ind && dis <= bigM * (1.0 - ind) ==> !(c > 0.0 && dis > 0.0)
  {
    assert bigM * (1.0 - ind) == bigM - bigM * ind;
    if ind == 0.0 {
      assert bigM * ind == 0.0;
    } else {
      assert bigM * ind == bigM;
    }
  }

  /** The big M exceeds both power limits when they are positive, so it never cuts a feasible power. */
  lemma BigMCoversLimits(s: Storage)
    requires s.maxCharge >= 0.0 && s.maxDischarge >= 0.0
    ensures BigM(s) >= s.maxCharge && BigM(s) >= s.maxDischarge
    ensures s.maxCharge > 0.0 || s.maxDischarge > 0.0 ==> BigM(s) > 0.0
  {
  }

  /** A link row of a variant reads power(i) = profile[i] * indicator. */
  lemma LinkMeaning(d: MovableDemand, x: VariantIndexes, i: nat, v: int -> real, ncols: nat)
    requires VariantShaped(x) && x.length <= |d.profile| && i < Width(x.length)
    requires 1 <= x.power && x.variantIndicator <= ncols
    ensures Satisfies(RowOf(LinkCall(d, x, i)), v, ncols) <==> v(x.power + i) == d.profile[i] * v(x.variantIndicator)
  {
    Dot2(x.variantIndicator, -1.0 * d.profile[i], x.power + i, 1.0, v, 1, ncols + 1);
  }

  /** The columns of the set, below hi, that take the value 1. */
  function Ones(indexes: set<int>, v: int -> real, lo: int, hi: int): set<int> {
    set k | k in indexes && lo <= k < hi && v(k) == 1.0
  }

  /** Over binary columns, the unit-weight sum counts the columns set to 1. */
  lemma {:induction false} UnitSumCountsOnes(indexes: set<int>, v: int -> real, lo: int, hi: int)
    requires forall k :: k in indexes ==> v(k) == 0.0 || v(k) == 1.0
    ensures Dot(UnitWeights(indexes), v, lo, hi) == |Ones(indexes, v, lo, hi)| as real
    decreases hi - lo
  {
    if hi > lo {
      UnitSumCountsOnes(indexes, v, lo, hi - 1);
      var k := hi - 1;
      if k in indexes && v(k) == 1.0 {
        assert Ones(indexes, v, lo, hi) == Ones(indexes, v, lo, hi - 1) + {k};
      } else {
        assert Ones(indexes, v, lo, hi) == Ones(indexes, v, lo, hi - 1);
      }
    } else {
      assert Ones(indexes, v, lo, hi) == {};
    }
  }

  /**
   * `addEqSumConstraint(indicators, 1.0)`: over binary indicator columns the row holds
   * exactly when one indicator is 1, that is, exactly one start variant is chosen.
   */
  lemma ExactlyOneVariant(vs: seq<VariantIndexes>, v: int -> real, ncols: nat)
    requires forall k :: k in VariantIndicators(vs) ==> 1 <= k <= ncols
    requires forall k :: k in VariantIndicators(vs) ==> v(k) == 0.0 || v(k) == 1.0
    ensures Satisfies(RowOf(SumCall(VariantIndicators(vs), Eq, 1.0)), v, ncols)
            <==> |set k | k in VariantIndicators(vs) && v(k) == 1.0| == 1
  {
    var ind := VariantIndicators(vs);
    UnitSumCountsOnes(ind, v, 1, ncols + 1);
    assert Ones(ind, v, 1, ncols + 1) == set k | k in ind && v(k) == 1.0;
  }

  // ---------------------------------------------------------------------------------------
  // Bounds

  /**
   * Storage bounds (`setUpStorageChargeConstraints` and siblings): after the calls, every
   * interval of the horizon has as upper bound its explicit value when the maximum map lists
   * it, and the physical maximum otherwise.
   */
  lemma UpperBoundOfEveryInterval(upper: map<int, real>, maximal: Option<map<int, real>>, first: int, horizon: nat, maximum: real, t: int)
    requires 0 <= t < horizon
    ensures var after := if maximal.Some?
                         then upper + ShiftKeys(maximal.value, first) + DefaultBounds(maximal.value, first, horizon, maximum)
                         else upper + DefaultBounds(map[], first, horizon, maximum);
            first + t in after
            && after[first + t] == if maximal.Some? && t in maximal.value then maximal.value[t] else maximum
  {
    assert IntervalOf(first + t, first) == t;
    assert t + first == first + t;
  }

  /**
   * The explicit bound maps of a storage are not range-checked: a key outside the horizon
   * still becomes a bound, on a column past the block (or before it).
   */
  lemma ExplicitBoundKeysUnchecked(bounds: map<int, real>, first: int, k: int)
    requires k in bounds
    ensures first + k in ShiftKeys(bounds, first) && ShiftKeys(bounds, first)[first + k] == bounds[k]
  {
    assert IntervalOf(first + k, first) == k;
    assert k + first == first + k;
  }

  /**
   * Contract power bounds are kept for intervals of the horizon and put on column
   * `key + power`, while the balance row and the objective use `power + key - start` for
   * that interval: the two agree exactly when the contract starts at interval 0.
   */
  lemma PowerBoundColumn(c: Contract, x: ContractIndexes, bounds: map<int, real>, horizon: int, k: int)
    requires k in bounds && 0 <= k < horizon
    ensures k + x.power in PowerBounds(bounds, x.power, horizon)
    ensures PowerBounds(bounds, x.power, horizon)[k + x.power] == bounds[k]
    ensures k + x.power == PowerColumn(c, x, k) <==> c.StartInterval() == 0
  {
    assert IntervalOf(k + x.power, x.power) == k;
  }

  /**
   * An energy row puts weight `duration(t)` on column `power + t` exactly for the horizon
   * intervals t in the constraint's range, and on no other column; that column is the one
   * the balance row and the objective use for interval t exactly when the contract starts
   * at interval 0.
   */
  lemma EnergySumColumn(c: Contract, x: ContractIndexes, sc: SumConstraint, intervals: Profile<real>, horizon: int, t: int)
    requires forall t | 0 <= t < horizon :: InRange(sc, horizon, t) ==> intervals.ValueForInterval(t).Some?
    ensures x.power + t in EnergyWeights(sc, x.power, intervals, horizon) <==> InRange(sc, horizon, t)
    ensures InRange(sc, horizon, t) ==> EnergyWeights(sc, x.power, intervals, horizon)[x.power + t]
                                        == intervals.ValueForInterval(t).value
    ensures forall j :: j in EnergyWeights(sc, x.power, intervals, horizon) ==> InRange(sc, horizon, j - x.power)
    ensures x.power + t == PowerColumn(c, x, t) <==> c.StartInterval() == 0
  {
    assert IntervalOf(x.power + t, x.power) == t;
  }

  /** The duration-weighted power of the columns `power + t` over the first n intervals in range. */
  function WeightedPowerSum(sc: SumConstraint, intervals: Profile<real>, horizon: int, power: int, v: int -> real, n: int): real
    requires forall t | 0 <= t < horizon :: InRange(sc, horizon, t) ==> intervals.ValueForInterval(t).Some?
    decreases n
  {
    if n <= 0 then 0.0
    else WeightedPowerSum(sc, intervals, horizon, power, v, n - 1)
         + (if InRange(sc, horizon, n - 1) then intervals.ValueForInterval(n - 1).value * v(power + n - 1) else 0.0)
  }

  /** The energy row's sum over the columns power .. power + n - 1. */
  lemma {:induction false} EnergyWeightsPrefix(sc: SumConstraint, intervals: Profile<real>, horizon: int, power: int, v: int -> real, n: int)
    requires forall t | 0 <= t < horizon :: InRange(sc, horizon, t) ==> intervals.ValueForInterval(t).Some?
    requires 0 <= n <= horizon
    ensures Dot(EnergyWeights(sc, power, intervals, horizon), v, power, power + n)
            == WeightedPowerSum(sc, intervals, horizon, power, v, n)
    decreases n
  {
    if n > 0 {
      EnergyWeightsPrefix(sc, intervals, horizon, power, v, n - 1);
      assert IntervalOf(power + n - 1, power) == n - 1;
    }
  }

  /**
   * An energy row whose intervals all have a duration is the weighted sum of the energy
   * constraint: its left side is the duration-weighted power of the columns `power + t` over
   * the horizon intervals t in range, compared by the row's sense with the constraint's sum.
   */
  lemma EnergyRowMeaning(sc: SumConstraint, power: int, intervals: Profile<real>, horizon: nat, sense: Sense,
                         v: int -> real, ncols: nat)
    requires forall t | 0 <= t < horizon :: InRange(sc, horizon, t) ==> intervals.ValueForInterval(t).Some?
    requires forall t | 0 <= t < horizon :: InRange(sc, horizon, t) ==> 1 <= power + t <= ncols
    ensures EnergyCall(sc, power, intervals, horizon, sense).WeightedSum?
    ensures RowOf(EnergyCall(sc, power, intervals, horizon, sense)).sense == sense
    ensures RowOf(EnergyCall(sc, power, intervals, horizon, sense)).rhs == sc.sum
    ensures Dot(RowOf(EnergyCall(sc, power, intervals, horizon, sense)).coeffs, v, 1, ncols + 1)
            == WeightedPowerSum(sc, intervals, horizon, power, v, horizon)
  {
    var w := EnergyWeights(sc, power, intervals, horizon);
    forall j | j in w
      ensures InRange(sc, horizon, j - power) && 1 <= j <= ncols
    {
      assert IntervalOf(j, power) == j - power;
    }
    var lo := if power < 1 then 1 else power;
    var hi := if power + horizon < ncols + 1 then power + horizon else ncols + 1;
    if lo <= hi {
      DotWithin(w, v, 1, ncols + 1, lo, hi);
      DotWithin(w, v, power, power + horizon, lo, hi);
    } else {
      DotNoKeys(w, v, 1, ncols + 1);
      DotNoKeys(w, v, power, power + horizon);
    }
    EnergyWeightsPrefix(sc, intervals, horizon, power, v, horizon);
  }

  /**
   * Row i of a contract's minimal (`Ge`) or maximal (`Le`) energy rows is constraint i's
   * duration-weighted power sum compared with its sum.
   */
  lemma EnergyCallsMeaning(scs: seq<ValidSumConstraint>, power: int, intervals: Profile<real>, horizon: nat, sense: Sense,
                           v: int -> real, ncols: nat, i: nat)
    requires i < |scs|
    requires forall t | 0 <= t < horizon :: InRange(scs[i], horizon, t) ==> intervals.ValueForInterval(t).Some?
    requires forall t | 0 <= t < horizon :: InRange(scs[i], horizon, t) ==> 1 <= power + t <= ncols
    ensures EnergyCalls(scs, power, intervals, horizon, sense)[i].WeightedSum?
    ensures Satisfies(RowOf(EnergyCalls(scs, power, intervals, horizon, sense)[i]), v, ncols)
            <==> match sense
                 case Eq => WeightedPowerSum(scs[i], intervals, horizon, power, v, horizon) == scs[i].sum
                 case Le => WeightedPowerSum(scs[i], intervals, horizon, power, v, horizon) <= scs[i].sum
                 case Ge => WeightedPowerSum(scs[i], intervals, horizon, power, v, horizon) >= scs[i].sum
  {
    EnergyRowMeaning(scs[i], power, intervals, horizon, sense, v, ncols);
  }
}
