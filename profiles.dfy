/**
 * Interval-indexed profiles: a list of values whose first element belongs to interval
 * `startInterval`. One generic datatype serves model/utils/Profile (T = Double),
 * optimizer/model/utils/Profile and StorageModeProfile (T = StorageMode).
 */
module Profiles {
  import opened Wrappers
  import opened Exceptions

  datatype Profile<T> = Profile(startInterval: int, values: seq<T>) {

    function Length(): (n: nat)
      ensures n == |values|
    {
      |values|
    }

    /** The first interval after the profile. */
    function LastInterval(): (last: int)
      ensures last - startInterval == |values|
    {
      startInterval + Length()
    }

    predicate IsIndexValid(index: int) {
      0 <= index < Length()
    }

    /** `getValueForIndex`: the value at a position of the list, empty outside it. */
    function ValueForIndex(index: int): (r: Option<T>)
      ensures r.Some? <==> 0 <= index < |values|
      ensures r.Some? ==> r.value == values[index]
    {
      if IsIndexValid(index) then Some(values[index]) else None
    }

    /** `getValueForInterval`: the value belonging to an interval, empty outside the profile. */
    function ValueForInterval(interval: int): (r: Option<T>)
      ensures r.Some? <==> startInterval <= interval < LastInterval()
      ensures r.Some? ==> r.value == values[interval - startInterval]
    {
      ValueForIndex(interval - startInterval)
    }
  }

  /** The list constructor: a profile starting at interval 0. */
  function FromValues<T>(values: seq<T>): (p: Profile<T>)
    ensures p.startInterval == 0 && p.Length() == |values|
    ensures forall t :: 0 <= t < |values| ==> p.ValueForInterval(t) == Some(values[t])
  {
    Profile(0, values)
  }

  /**
   * The constant constructor `Profile(startInterval, length, value)`: an `ArrayList` of
   * capacity `length` filled by a loop. A negative capacity makes `ArrayList` throw.
   */
  method NewConstant<T>(startInterval: int, length: int, constantValue: T) returns (r: Result<Profile<T>, Exception>)
    ensures r.Failure? <==> length < 0
    ensures r.Failure? ==> r.error == IllegalCapacity(length)
    ensures r.Success? ==> r.value.startInterval == startInterval && r.value.Length() == length
    ensures r.Success? ==> forall t :: startInterval <= t < startInterval + length ==>
                             r.value.ValueForInterval(t) == Some(constantValue)
  {
    if length < 0 {
      return Failure(IllegalCapacity(length));
    }
    var values: seq<T> := [];
    var i := 0;
    while i < length
      invariant 0 <= i <= length
      invariant |values| == i
      invariant forall k :: 0 <= k < i ==> values[k] == constantValue
    {
      values := values + [constantValue];
      i := i + 1;
    }
    return Success(Profile(startInterval, values));
  }

  /** The constant constructor `Profile(length, value)`, starting at interval 0. */
  method NewConstantFromZero<T>(length: int, constantValue: T) returns (r: Result<Profile<T>, Exception>)
    ensures r.Failure? <==> length < 0
    ensures r.Failure? ==> r.error == IllegalCapacity(length)
    ensures r.Success? ==> r.value.startInterval == 0 && r.value.Length() == length
    ensures r.Success? ==> forall t :: 0 <= t < length ==> r.value.ValueForInterval(t) == Some(constantValue)
  {
    r := NewConstant(0, length, constantValue);
  }
}
