/**
 * Energy purchase/sale contracts (model/contract/Contract and its long-id twin
 * optimizer/model/contract/Contract): a unit-price profile anchoring the contract in time,
 * optional power bounds per interval and optional energy sums over interval ranges.
 * A `null` collection is `None`.
 */
module Contracts {
  import opened Wrappers
  import opened Exceptions
  import opened Text
  import opened Identity
  import opened Profiles
  import opened SumConstraints

  datatype ContractDirection = Purchase | Sell

  datatype Contract = Contract(
    id: int,
    name: string,
    unitPrice: Profile<real>,
    contractDirection: ContractDirection,
    minPowerConstraints: Option<map<int, real>>,
    maxPowerConstraints: Option<map<int, real>>,
    minEnergyConstraints: Option<seq<ValidSumConstraint>>,
    maxEnergyConstraints: Option<seq<ValidSumConstraint>>)
  {
    function StartInterval(): int {
      unitPrice.startInterval
    }

    function ContractLength(): nat {
      unitPrice.Length()
    }

    /** The first interval after the contract. */
    function LastInterval(): int {
      StartInterval() + ContractLength()
    }

    /** A contract is active on [StartInterval, LastInterval): exactly where it has a unit price. */
    predicate IsActiveAt(interval: int)
      ensures IsActiveAt(interval) <==> unitPrice.ValueForInterval(interval).Some?
    {
      StartInterval() <= interval < LastInterval()
    }

    /** `getMaxPowerConstraintForInterval`; the map must be set (Java dereferences it). */
    function MaxPowerConstraintForInterval(interval: int): (r: Option<real>)
      requires maxPowerConstraints.Some?
      ensures r.Some? <==> interval in maxPowerConstraints.value
      ensures r.Some? ==> r.value == maxPowerConstraints.value[interval]
    {
      if interval in maxPowerConstraints.value then Some(maxPowerConstraints.value[interval]) else None
    }

    /** `getMinPowerConstraintForInterval`; the map must be set (Java dereferences it). */
    function MinPowerConstraintForInterval(interval: int): (r: Option<real>)
      requires minPowerConstraints.Some?
      ensures r.Some? <==> interval in minPowerConstraints.value
      ensures r.Some? ==> r.value == minPowerConstraints.value[interval]
    {
      if interval in minPowerConstraints.value then Some(minPowerConstraints.value[interval]) else None
    }

    /** `checkPowerConstraintsIntervalRange`: every key is an interval of the contract. */
    predicate PowerConstraintsInRange(powerConstraints: map<int, real>) {
      forall interval :: interval in powerConstraints ==> IsActiveAt(interval)
    }

    /** `checkEnergyConstraintsIntervalRange`: both ends of every range lie in the contract. */
    predicate EnergyConstraintsInRange(energyConstraints: seq<ValidSumConstraint>) {
      forall i :: 0 <= i < |energyConstraints| ==>
        IsActiveAt(energyConstraints[i].startInterval) && IsActiveAt(energyConstraints[i].endInterval)
    }

    /** The constraints a built contract carries are all in range. */
    predicate Valid() {
      (minPowerConstraints.Some? ==> PowerConstraintsInRange(minPowerConstraints.value))
      && (maxPowerConstraints.Some? ==> PowerConstraintsInRange(maxPowerConstraints.value))
      && (minEnergyConstraints.Some? ==> EnergyConstraintsInRange(minEnergyConstraints.value))
      && (maxEnergyConstraints.Some? ==> EnergyConstraintsInRange(maxEnergyConstraints.value))
    }
  }

  /** `new Contract(id, name, unitPrice, direction)`: no constraints yet. */
  function BareContract(id: int, name: string, unitPrice: Profile<real>, direction: ContractDirection): Contract {
    Contract(id, name, unitPrice, direction, None, None, None, None)
  }

  /** The check of `build()` that failed. */
  datatype Check = MinimalPower | MaximalPower | MinimalEnergy | MaximalEnergy

  function CheckText(c: Check): string {
    match c
    case MinimalPower => "minimal power"
    case MaximalPower => "maximal power"
    case MinimalEnergy => "minimal energy"
    case MaximalEnergy => "maximal energy"
  }

  function InvalidConstraints(id: int, c: Check): Exception {
    Exception(IllegalState, "Building contract with id: " + IntToString(id) + " - Invalid " + CheckText(c) + " constraints")
  }

  /**
   * `ContractBuilder.build()` as a function of the builder's fields: the four checks in
   * the order minimal power, maximal power, minimal energy, maximal energy; the first that
   * fails names itself in an IllegalStateException.
   */
  function BuildContract(
    id: int, name: string, unitPrice: Profile<real>, direction: ContractDirection,
    minPower: Option<map<int, real>>, maxPower: Option<map<int, real>>,
    minEnergy: Option<seq<ValidSumConstraint>>, maxEnergy: Option<seq<ValidSumConstraint>>): (r: Result<Contract, Exception>)
    ensures r.Success? <==> BareContract(id, name, unitPrice, direction)
                              .(minPowerConstraints := minPower, maxPowerConstraints := maxPower,
                                minEnergyConstraints := minEnergy, maxEnergyConstraints := maxEnergy).Valid()
    ensures r.Success? ==> r.value == Contract(id, name, unitPrice, direction, minPower, maxPower, minEnergy, maxEnergy)
    ensures r.Failure? ==> r.error.kind == IllegalState
    ensures (minPower.Some? && !BareContract(id, name, unitPrice, direction).PowerConstraintsInRange(minPower.value))
              ==> r == Failure(InvalidConstraints(id, MinimalPower))
  {
    var contract := BareContract(id, name, unitPrice, direction);
    if minPower.Some? && !contract.PowerConstraintsInRange(minPower.value) then
      Failure(InvalidConstraints(id, MinimalPower))
    else if maxPower.Some? && !contract.PowerConstraintsInRange(maxPower.value) then
      Failure(InvalidConstraints(id, MaximalPower))
    else if minEnergy.Some? && !contract.EnergyConstraintsInRange(minEnergy.value) then
      Failure(InvalidConstraints(id, MinimalEnergy))
    else if maxEnergy.Some? && !contract.EnergyConstraintsInRange(maxEnergy.value) then
      Failure(InvalidConstraints(id, MaximalEnergy))
    else
      Success(contract.(minPowerConstraints := minPower, maxPowerConstraints := maxPower,
                        minEnergyConstraints := minEnergy, maxEnergyConstraints := maxEnergy))
  }

  /** A power key outside the contract is reported as the first failing check that sees it. */
  lemma OutOfRangeMaxPowerRejected(
    id: int, name: string, unitPrice: Profile<real>, direction: ContractDirection,
    maxPower: map<int, real>, interval: int)
    requires interval in maxPower && !(unitPrice.startInterval <= interval < unitPrice.startInterval + |unitPrice.values|)
    ensures BuildContract(id, name, unitPrice, direction, None, Some(maxPower), None, None)
              == Failure(InvalidConstraints(id, MaximalPower))
  {
    assert !BareContract(id, name, unitPrice, direction).IsActiveAt(interval);
  }

  /** An energy range whose end lies past the contract is rejected. */
  lemma EnergyRangePastContractRejected(
    id: int, name: string, unitPrice: Profile<real>, direction: ContractDirection,
    c: ValidSumConstraint)
    requires unitPrice.startInterval <= c.startInterval
    requires c.endInterval >= unitPrice.startInterval + |unitPrice.values|
    ensures BuildContract(id, name, unitPrice, direction, None, None, Some([c]), None)
              == Failure(InvalidConstraints(id, MinimalEnergy))
  {
    var contract := BareContract(id, name, unitPrice, direction);
    assert !contract.IsActiveAt([c][0].endInterval);
    assert !contract.EnergyConstraintsInRange([c]);
  }

  /**
   * A built contract is active on every interval of each of its energy ranges: the range is
   * ordered and both of its ends lie in the contract.
   */
  lemma EnergyRangesActive(c: Contract, i: nat, t: int)
    requires c.Valid()
    ensures (c.minEnergyConstraints.Some? && i < |c.minEnergyConstraints.value|
             && Covers(c.minEnergyConstraints.value[i], t)) ==> c.IsActiveAt(t)
    ensures (c.maxEnergyConstraints.Some? && i < |c.maxEnergyConstraints.value|
             && Covers(c.maxEnergyConstraints.value[i], t)) ==> c.IsActiveAt(t)
  {
  }

  /** `equals`: two contracts are equal exactly when their ids are; nothing else compares equal. */
  function Equals(c: Contract, o: Obj<Contract>): (r: bool)
    ensures r <==> o.Instance? && o.value.id == c.id
  {
    match o
    case Instance(other) => c.id == other.id
    case OtherType => false
  }

  /** `hashCode`: the id (int ids) or `Long.hashCode` of the id (long ids). */
  function HashCode(width: IdWidth, c: Contract): (h: int)
    requires Fits(width, c.id)
    ensures FitsInt(h)
  {
    IdHashCode(width, c.id)
  }

  /** Equal contracts hash alike, and a contract is equal to itself. */
  lemma EqualsAgreesWithHashCode(width: IdWidth, a: Contract, b: Contract)
    requires Fits(width, a.id) && Fits(width, b.id)
    ensures Equals(a, Instance(a))
    ensures Equals(a, Instance(b)) ==> HashCode(width, a) == HashCode(width, b)
    ensures Equals(a, Instance(b)) <==> Equals(b, Instance(a))
  {
  }

  /** The builder's mutable fields. */
  datatype BuilderFields = BuilderFields(
    minPower: Option<map<int, real>>, maxPower: Option<map<int, real>>,
    minEnergy: Option<seq<ValidSumConstraint>>, maxEnergy: Option<seq<ValidSumConstraint>>)

  /** Adding one entry to a possibly unset map: the map is created on first use. */
  function PutEntry(m: Option<map<int, real>>, interval: int, value: real): (r: Option<map<int, real>>)
    ensures r.Some? && interval in r.value && r.value[interval] == value
    ensures forall k :: k != interval ==> (k in r.value <==> m.Some? && k in m.value)
    ensures m.Some? ==> forall k :: k != interval && k in m.value ==> r.value[k] == m.value[k]
  {
    Some(m.GetOr(map[])[interval := value])
  }

  /** Appending one element to a possibly unset list: the list is created on first use. */
  function AddElement(s: Option<seq<ValidSumConstraint>>, c: ValidSumConstraint): (r: Option<seq<ValidSumConstraint>>)
    ensures r.Some? && |r.value| >= 1 && r.value[|r.value| - 1] == c
    ensures s.Some? ==> r.value[..|r.value| - 1] == s.value
    ensures s.None? ==> r.value == [c]
  {
    Some(s.GetOr([]) + [c])
  }

  /** `Contract.ContractBuilder` */
  class ContractBuilder {
    const id: int
    const name: string
    const unitPrice: Profile<real>
    const contractDirection: ContractDirection
    var minPowerConstraints: Option<map<int, real>>
    var maxPowerConstraints: Option<map<int, real>>
    var minEnergyConstraints: Option<seq<ValidSumConstraint>>
    var maxEnergyConstraints: Option<seq<ValidSumConstraint>>

    function Fields(): BuilderFields
      reads this
    {
      BuilderFields(minPowerConstraints, maxPowerConstraints, minEnergyConstraints, maxEnergyConstraints)
    }

    /** `Contract.builder(id, name, unitPrice, direction)` */
    constructor (id: int, name: string, unitPrice: Profile<real>, contractDirection: ContractDirection)
      ensures this.id == id && this.name == name && this.unitPrice == unitPrice
      ensures this.contractDirection == contractDirection
      ensures Fields() == BuilderFields(None, None, None, None)
    {
      this.id := id;
      this.name := name;
      this.unitPrice := unitPrice;
      this.contractDirection := contractDirection;
      minPowerConstraints := None;
      maxPowerConstraints := None;
      minEnergyConstraints := None;
      maxEnergyConstraints := None;
    }

    method MinPowerConstraints(constraints: map<int, real>)
      modifies this
      ensures Fields() == old(Fields()).(minPower := Some(constraints))
    {
      minPowerConstraints := Some(constraints);
    }

    method MinPowerConstraint(interval: int, value: real)
      modifies this
      ensures Fields() == old(Fields()).(minPower := PutEntry(old(minPowerConstraints), interval, value))
    {
      var m := if minPowerConstraints.None? then map[] else minPowerConstraints.value;
      minPowerConstraints := Some(m[interval := value]);
    }

    method MaxPowerConstraints(constraints: map<int, real>)
      modifies this
      ensures Fields() == old(Fields()).(maxPower := Some(constraints))
    {
      maxPowerConstraints := Some(constraints);
    }

    method MaxPowerConstraint(interval: int, value: real)
      modifies this
      ensures Fields() == old(Fields()).(maxPower := PutEntry(old(maxPowerConstraints), interval, value))
    {
      var m := if maxPowerConstraints.None? then map[] else maxPowerConstraints.value;
      maxPowerConstraints := Some(m[interval := value]);
    }

    method MinEnergyConstraints(constraints: seq<ValidSumConstraint>)
      modifies this
      ensures Fields() == old(Fields()).(minEnergy := Some(constraints))
    {
      minEnergyConstraints := Some(constraints);
    }

    method MinEnergyConstraint(constraint: ValidSumConstraint)
      modifies this
      ensures Fields() == old(Fields()).(minEnergy := AddElement(old(minEnergyConstraints), constraint))
    {
      var s := if minEnergyConstraints.None? then [] else minEnergyConstraints.value;
      minEnergyConstraints := Some(s + [constraint]);
    }

    method MaxEnergyConstraints(constraints: seq<ValidSumConstraint>)
      modifies this
      ensures Fields() == old(Fields()).(maxEnergy := Some(constraints))
    {
      maxEnergyConstraints := Some(constraints);
    }

    method MaxEnergyConstraint(constraint: ValidSumConstraint)
      modifies this
      ensures Fields() == old(Fields()).(maxEnergy := AddElement(old(maxEnergyConstraints), constraint))
    {
      var s := if maxEnergyConstraints.None? then [] else maxEnergyConstraints.value;
      maxEnergyConstraints := Some(s + [constraint]);
    }

    /** `build()`: starts from the bare contract and installs each set collection after checking it. */
    method Build() returns (r: Result<Contract, Exception>)
      ensures r == BuildContract(id, name, unitPrice, contractDirection, minPowerConstraints,
                                 maxPowerConstraints, minEnergyConstraints, maxEnergyConstraints)
      ensures r.Success? ==> r.value.Valid()
    {
      var contract := BareContract(id, name, unitPrice, contractDirection);
      if minPowerConstraints.Some? {
        if !contract.PowerConstraintsInRange(minPowerConstraints.value) {
          return Failure(InvalidConstraints(id, MinimalPower));
        }
        contract := contract.(minPowerConstraints := minPowerConstraints);
      }
      if maxPowerConstraints.Some? {
        if !contract.PowerConstraintsInRange(maxPowerConstraints.value) {
          return Failure(InvalidConstraints(id, MaximalPower));
        }
        contract := contract.(maxPowerConstraints := maxPowerConstraints);
      }
      if minEnergyConstraints.Some? {
        if !contract.EnergyConstraintsInRange(minEnergyConstraints.value) {
          return Failure(InvalidConstraints(id, MinimalEnergy));
        }
        contract := contract.(minEnergyConstraints := minEnergyConstraints);
      }
      if maxEnergyConstraints.Some? {
        if !contract.EnergyConstraintsInRange(maxEnergyConstraints.value) {
          return Failure(InvalidConstraints(id, MaximalEnergy));
        }
        contract := contract.(maxEnergyConstraints := maxEnergyConstraints);
      }
      return Success(contract);
    }
  }
}
