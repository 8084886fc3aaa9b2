/**
 * Energy storages (model/storage/Storage): physical maxima, an initial energy and optional
 * per-interval bound maps and forbidden-interval sets. A `null` collection is `None`; a Java
 * `Set<Integer>` is a duplicate-free sequence in its iteration order.
 */
module Storages {
  import opened Wrappers
  import opened Exceptions
  import opened Text
  import opened Identity

  datatype StorageMode = Disabled | Charging | Discharging

  datatype Storage = Storage(
    id: int,
    name: string,
    maxCharge: real,
    maxDischarge: real,
    maxCapacity: real,
    initialEnergy: real,
    minChargeConstraints: Option<map<int, real>>,
    maxChargeConstraints: Option<map<int, real>>,
    minDischargeConstraints: Option<map<int, real>>,
    maxDischargeConstraints: Option<map<int, real>>,
    minEnergyConstraints: Option<map<int, real>>,
    maxEnergyConstraints: Option<map<int, real>>,
    forbiddenChargeIntervals: Option<seq<int>>,
    forbiddenDischargeIntervals: Option<seq<int>>)

  /** Every bound value is at most `limit`; keys and the lower side are not looked at. */
  predicate ValuesAtMost(constraints: map<int, real>, limit: real) {
    forall interval :: interval in constraints ==> constraints[interval] <= limit
  }

  /** `isChargeConstraintsValid`, `isDischargeConstraintsValid`, `isEnergyConstraintsValid` of storage `s`. */
  predicate IsChargeConstraintsValid(s: Storage, constraints: map<int, real>) {
    ValuesAtMost(constraints, s.maxCharge)
  }

  predicate IsDischargeConstraintsValid(s: Storage, constraints: map<int, real>) {
    ValuesAtMost(constraints, s.maxDischarge)
  }

  predicate IsEnergyConstraintsValid(s: Storage, constraints: map<int, real>) {
    ValuesAtMost(constraints, s.maxCapacity)
  }

  /** The acceptance test of `setInitialEnergy`. */
  predicate IsInitialEnergyValid(maxCapacity: real, initialEnergy: real) {
    0.0 <= initialEnergy <= maxCapacity
  }

  predicate NoDuplicates(s: seq<int>) {
    forall i, j :: 0 <= i < j < |s| ==> s[i] != s[j]
  }

  /** What a built storage satisfies. */
  predicate Valid(s: Storage) {
    IsInitialEnergyValid(s.maxCapacity, s.initialEnergy)
    && (s.minChargeConstraints.Some? ==> IsChargeConstraintsValid(s, s.minChargeConstraints.value))
    && (s.maxChargeConstraints.Some? ==> IsChargeConstraintsValid(s, s.maxChargeConstraints.value))
    && (s.minDischargeConstraints.Some? ==> IsDischargeConstraintsValid(s, s.minDischargeConstraints.value))
    && (s.maxDischargeConstraints.Some? ==> IsDischargeConstraintsValid(s, s.maxDischargeConstraints.value))
    && (s.minEnergyConstraints.Some? ==> IsEnergyConstraintsValid(s, s.minEnergyConstraints.value))
    && (s.maxEnergyConstraints.Some? ==> IsEnergyConstraintsValid(s, s.maxEnergyConstraints.value))
  }

  /** `new Storage(id, name, maxCharge, maxDischarge, maxCapacity)`: initial energy 0, nothing else set. */
  function BareStorage(id: int, name: string, maxCharge: real, maxDischarge: real, maxCapacity: real): Storage {
    Storage(id, name, maxCharge, maxDischarge, maxCapacity, 0.0, None, None, None, None, None, None, None, None)
  }

  /** The check of `build()` that failed. */
  datatype Check =
    | InitialEnergyValue
    | MinimalCharge | MaximalCharge
    | MinimalDischarge | MaximalDischarge
    | MinimalEnergy | MaximalEnergy

  function CheckText(c: Check): string {
    match c
    case InitialEnergyValue => "initial energy value"
    case MinimalCharge => "minimal charge constraints"
    case MaximalCharge => "maximal charge constraints"
    case MinimalDischarge => "minimal discharge constraints"
    case MaximalDischarge => "maximal discharge constraints"
    case MinimalEnergy => "minimal energy constraints"
    case MaximalEnergy => "maximal energy constraints"
  }

  function Invalid(id: int, c: Check): Exception {
    Exception(IllegalState, "Building storage with id: " + IntToString(id) + " - Invalid " + CheckText(c))
  }

  /** The builder's settable fields, `initialEnergy` defaulting to 0. */
  datatype StorageFields = StorageFields(
    initialEnergy: real,
    minCharge: Option<map<int, real>>, maxCharge: Option<map<int, real>>,
    minDischarge: Option<map<int, real>>, maxDischarge: Option<map<int, real>>,
    minEnergy: Option<map<int, real>>, maxEnergy: Option<map<int, real>>,
    forbiddenCharge: Option<seq<int>>, forbiddenDischarge: Option<seq<int>>)

  const DefaultFields: StorageFields := StorageFields(0.0, None, None, None, None, None, None, None, None)

  /** The storage a builder describes, before any check. */
  function Assemble(id: int, name: string, maxCharge: real, maxDischarge: real, maxCapacity: real, f: StorageFields): Storage {
    Storage(id, name, maxCharge, maxDischarge, maxCapacity, f.initialEnergy,
            f.minCharge, f.maxCharge, f.minDischarge, f.maxDischarge, f.minEnergy, f.maxEnergy,
            f.forbiddenCharge, f.forbiddenDischarge)
  }

  /**
   * `StorageBuilder.build()`: the initial energy is checked first, then the six bound maps
   * in the order minimal/maximal charge, discharge, energy; the forbidden sets are copied
   * without any check.
   */
  function BuildStorage(id: int, name: string, maxCharge: real, maxDischarge: real, maxCapacity: real, f: StorageFields): (r: Result<Storage, Exception>)
    ensures r.Success? ==> r.value == Assemble(id, name, maxCharge, maxDischarge, maxCapacity, f)
    ensures r.Failure? ==> r.error.kind == IllegalState
  {
    if !IsInitialEnergyValid(maxCapacity, f.initialEnergy) then Failure(Invalid(id, InitialEnergyValue))
    else if f.minCharge.Some? && !ValuesAtMost(f.minCharge.value, maxCharge) then Failure(Invalid(id, MinimalCharge))
    else if f.maxCharge.Some? && !ValuesAtMost(f.maxCharge.value, maxCharge) then Failure(Invalid(id, MaximalCharge))
    else if f.minDischarge.Some? && !ValuesAtMost(f.minDischarge.value, maxDischarge) then Failure(Invalid(id, MinimalDischarge))
    else if f.maxDischarge.Some? && !ValuesAtMost(f.maxDischarge.value, maxDischarge) then Failure(Invalid(id, MaximalDischarge))
    else if f.minEnergy.Some? && !ValuesAtMost(f.minEnergy.value, maxCapacity) then Failure(Invalid(id, MinimalEnergy))
    else if f.maxEnergy.Some? && !ValuesAtMost(f.maxEnergy.value, maxCapacity) then Failure(Invalid(id, MaximalEnergy))
    else Success(Assemble(id, name, maxCharge, maxDischarge, maxCapacity, f))
  }

  /**
   * A build succeeds exactly when the assembled storage is valid: initial energy in
   * [0, maxCapacity] and every set bound value at most its physical maximum. An unset
   * initial energy is 0, so it is rejected only for a negative capacity.
   */
  lemma BuildAcceptsExactlyValid(id: int, name: string, maxCharge: real, maxDischarge: real,
                                                   maxCapacity: real, f: StorageFields)
    ensures var built := BuildStorage(id, name, maxCharge, maxDischarge, maxCapacity, f);
            built.Success? <==> Valid(Assemble(id, name, maxCharge, maxDischarge, maxCapacity, f))
    ensures !(0.0 <= f.initialEnergy <= maxCapacity) ==>
              BuildStorage(id, name, maxCharge, maxDischarge, maxCapacity, f) == Failure(Invalid(id, InitialEnergyValue))
    ensures BuildStorage(id, name, maxCharge, maxDischarge, maxCapacity, DefaultFields).Success? <==> 0.0 <= maxCapacity
  {
  }

  /** A bound value above the physical maximum is rejected; one far below it (even negative) is not. */
  lemma ChargeBoundAboveMaximumRejected(id: int, name: string, maxCharge: real, maxDischarge: real, maxCapacity: real,
                                        interval: int, value: real)
    requires 0.0 <= maxCapacity
    ensures value > maxCharge ==>
      BuildStorage(id, name, maxCharge, maxDischarge, maxCapacity, DefaultFields.(maxCharge := Some(map[interval := value])))
        == Failure(Invalid(id, MaximalCharge))
    ensures value <= maxCharge ==>
      BuildStorage(id, name, maxCharge, maxDischarge, maxCapacity, DefaultFields.(maxCharge := Some(map[interval := value]))).Success?
  {
    var s := BareStorage(id, name, maxCharge, maxDischarge, maxCapacity);
    if value > maxCharge {
      assert map[interval := value][interval] == value;
    }
  }

  /** Interval keys are never checked: a bound on any interval, even outside every horizon, is accepted. */
  lemma BoundKeysUnchecked(id: int, name: string, maxCharge: real, maxDischarge: real, maxCapacity: real,
                           f: StorageFields, interval: int, value: real)
    requires BuildStorage(id, name, maxCharge, maxDischarge, maxCapacity, f).Success?
    requires value <= maxCapacity
    ensures BuildStorage(id, name, maxCharge, maxDischarge, maxCapacity,
                         f.(maxEnergy := Some(f.maxEnergy.GetOr(map[])[interval := value]))).Success?
  {
    var g := f.(maxEnergy := Some(f.maxEnergy.GetOr(map[])[interval := value]));
    var s := Assemble(id, name, maxCharge, maxDischarge, maxCapacity, g);
    assert IsEnergyConstraintsValid(s, g.maxEnergy.value);
  }

  /** `equals` compares ids only. */
  function Equals(s: Storage, o: Obj<Storage>): (r: bool)
    ensures r <==> o.Instance? && o.value.id == s.id
  {
    match o
    case Instance(other) => s.id == other.id
    case OtherType => false
  }

  /** `hashCode` is the id. */
  function HashCode(s: Storage): (h: int)
    ensures h == s.id
  {
    s.id
  }

  lemma EqualStoragesHashAlike(a: Storage, b: Storage)
    ensures Equals(a, Instance(b)) ==> HashCode(a) == HashCode(b)
    ensures Equals(a, Instance(a.(name := b.name, maxCapacity := b.maxCapacity)))
  {
  }

  /** `Set.add`: no effect on an element already present. */
  function AddToSet(s: Option<seq<int>>, x: int): (r: seq<int>)
    ensures forall y :: y in r <==> y == x || (s.Some? && y in s.value)
    ensures s.Some? && NoDuplicates(s.value) ==> NoDuplicates(r)
    ensures s.None? ==> r == [x]
  {
    var old_ := s.GetOr([]);
    if x in old_ then old_ else old_ + [x]
  }

  /** `Storage.StorageBuilder` */
  class StorageBuilder {
    const id: int
    const name: string
    const maxCharge: real
    const maxDischarge: real
    const maxCapacity: real
    var fields: StorageFields

    /** `Storage.builder(id, name, maxCharge, maxDischarge, maxCapacity)` */
    constructor (id: int, name: string, maxCharge: real, maxDischarge: real, maxCapacity: real)
      ensures this.id == id && this.name == name && this.maxCharge == maxCharge
      ensures this.maxDischarge == maxDischarge && this.maxCapacity == maxCapacity
      ensures fields == DefaultFields
    {
      this.id := id;
      this.name := name;
      this.maxCharge := maxCharge;
      this.maxDischarge := maxDischarge;
      this.maxCapacity := maxCapacity;
      fields := DefaultFields;
    }

    method InitialEnergy(value: real)
      modifies this
      ensures fields == old(fields).(initialEnergy := value)
    {
      fields := fields.(initialEnergy := value);
    }

    method MinChargeConstraint(index: int, value: real)
      modifies this
      ensures fields == old(fields).(minCharge := Some(old(fields.minCharge).GetOr(map[])[index := value]))
    {
      var m := if fields.minCharge.None? then map[] else fields.minCharge.value;
      fields := fields.(minCharge := Some(m[index := value]));
    }

    method MinChargeConstraints(constraints: map<int, real>)
      modifies this
      ensures fields == old(fields).(minCharge := Some(constraints))
    {
      fields := fields.(minCharge := Some(constraints));
    }

    method MaxChargeConstraint(index: int, value: real)
      modifies this
      ensures fields == old(fields).(maxCharge := Some(old(fields.maxCharge).GetOr(map[])[index := value]))
    {
      var m := if fields.maxCharge.None? then map[] else fields.maxCharge.value;
      fields := fields.(maxCharge := Some(m[index := value]));
    }

    method MaxChargeConstraints(constraints: map<int, real>)
      modifies this
      ensures fields == old(fields).(maxCharge := Some(constraints))
    {
      fields := fields.(maxCharge := Some(constraints));
    }

    method MinDischargeConstraint(index: int, value: real)
      modifies this
      ensures fields == old(fields).(minDischarge := Some(old(fields.minDischarge).GetOr(map[])[index := value]))
    {
      var m := if fields.minDischarge.None? then map[] else fields.minDischarge.value;
      fields := fields.(minDischarge := Some(m[index := value]));
    }

    method MinDischargeConstraints(constraints: map<int, real>)
      modifies this
      ensures fields == old(fields).(minDischarge := Some(constraints))
    {
      fields := fields.(minDischarge := Some(constraints));
    }

    method MaxDischargeConstraint(index: int, value: real)
      modifies this
      ensures fields == old(fields).(maxDischarge := Some(old(fields.maxDischarge).GetOr(map[])[index := value]))
    {
      var m := if fields.maxDischarge.None? then map[] else fields.maxDischarge.value;
      fields := fields.(maxDischarge := Some(m[index := value]));
    }

    method MaxDischargeConstraints(constraints: map<int, real>)
      modifies this
      ensures fields == old(fields).(maxDischarge := Some(constraints))
    {
      fields := fields.(maxDischarge := Some(constraints));
    }

    method MinEnergyConstraint(index: int, value: real)
      modifies this
      ensures fields == old(fields).(minEnergy := Some(old(fields.minEnergy).GetOr(map[])[index := value]))
    {
      var m := if fields.minEnergy.None? then map[] else fields.minEnergy.value;
      fields := fields.(minEnergy := Some(m[index := value]));
    }

    method MinEnergyConstraints(constraints: map<int, real>)
      modifies this
      ensures fields == old(fields).(minEnergy := Some(constraints))
    {
      fields := fields.(minEnergy := Some(constraints));
    }

    method MaxEnergyConstraint(index: int, value: real)
      modifies this
      ensures fields == old(fields).(maxEnergy := Some(old(fields.maxEnergy).GetOr(map[])[index := value]))
    {
      var m := if fields.maxEnergy.None? then map[] else fields.maxEnergy.value;
      fields := fields.(maxEnergy := Some(m[index := value]));
    }

    method MaxEnergyConstraints(constraints: map<int, real>)
      modifies this
      ensures fields == old(fields).(maxEnergy := Some(constraints))
    {
      fields := fields.(maxEnergy := Some(constraints));
    }

    method ForbiddenChargeIntervals(intervals: seq<int>)
      requires NoDuplicates(intervals)
      modifies this
      ensures fields == old(fields).(forbiddenCharge := Some(intervals))
    {
      fields := fields.(forbiddenCharge := Some(intervals));
    }

    method ForbiddenChargeInterval(interval: int)
      modifies this
      ensures fields == old(fields).(forbiddenCharge := Some(AddToSet(old(fields.forbiddenCharge), interval)))
    {
      var s := if fields.forbiddenCharge.None? then [] else fields.forbiddenCharge.value;
      if interval !in s {
        s := s + [interval];
      }
      fields := fields.(forbiddenCharge := Some(s));
    }

    method ForbiddenDischargeIntervals(intervals: seq<int>)
      requires NoDuplicates(intervals)
      modifies this
      ensures fields == old(fields).(forbiddenDischarge := Some(intervals))
    {
      fields := fields.(forbiddenDischarge := Some(intervals));
    }

    method ForbiddenDischargeInterval(interval: int)
      modifies this
      ensures fields == old(fields).(forbiddenDischarge := Some(AddToSet(old(fields.forbiddenDischarge), interval)))
    {
      var s := if fields.forbiddenDischarge.None? then [] else fields.forbiddenDischarge.value;
      if interval !in s {
        s := s + [interval];
      }
      fields := fields.(forbiddenDischarge := Some(s));
    }

    /** `build()`: installs each field on the bare storage after its check, in the source's order. */
    method Build() returns (r: Result<Storage, Exception>)
      ensures r == BuildStorage(id, name, maxCharge, maxDischarge, maxCapacity, fields)
    {
      var f := fields;
      var storage := BareStorage(id, name, maxCharge, maxDischarge, maxCapacity);
      if !IsInitialEnergyValid(storage.maxCapacity, f.initialEnergy) {
        return Failure(Invalid(id, InitialEnergyValue));
      }
      storage := storage.(initialEnergy := f.initialEnergy);
      if f.minCharge.Some? {
        if !ValuesAtMost(f.minCharge.value, storage.maxCharge) {
          return Failure(Invalid(id, MinimalCharge));
        }
        storage := storage.(minChargeConstraints := f.minCharge);
      }
      if f.maxCharge.Some? {
        if !ValuesAtMost(f.maxCharge.value, storage.maxCharge) {
          return Failure(Invalid(id, MaximalCharge));
        }
        storage := storage.(maxChargeConstraints := f.maxCharge);
      }
      if f.minDischarge.Some? {
        if !ValuesAtMost(f.minDischarge.value, storage.maxDischarge) {
          return Failure(Invalid(id, MinimalDischarge));
        }
        storage := storage.(minDischargeConstraints := f.minDischarge);
      }
      if f.maxDischarge.Some? {
        if !ValuesAtMost(f.maxDischarge.value, storage.maxDischarge) {
          return Failure(Invalid(id, MaximalDischarge));
        }
        storage := storage.(maxDischargeConstraints := f.maxDischarge);
      }
      if f.minEnergy.Some? {
        if !ValuesAtMost(f.minEnergy.value, storage.maxCapacity) {
          return Failure(Invalid(id, MinimalEnergy));
        }
        storage := storage.(minEnergyConstraints := f.minEnergy);
      }
      if f.maxEnergy.Some? {
        if !ValuesAtMost(f.maxEnergy.value, storage.maxCapacity) {
          return Failure(Invalid(id, MaximalEnergy));
        }
        storage := storage.(maxEnergyConstraints := f.maxEnergy);
      }
      if f.forbiddenCharge.Some? {
        storage := storage.(forbiddenChargeIntervals := f.forbiddenCharge);
      }
      if f.forbiddenDischarge.Some? {
        storage := storage.(forbiddenDischargeIntervals := f.forbiddenDischarge);
      }
      return Success(storage);
    }
  }
}
