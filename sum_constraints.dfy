/** A sum constraint over the inclusive interval range [startInterval, endInterval]. */
module SumConstraints {
  import opened Wrappers
  import opened Exceptions
  import opened Text

  datatype SumConstraint = SumConstraint(startInterval: int, endInterval: int, sum: real)

  /** Only ordered ranges can be constructed. */
  type ValidSumConstraint = c: SumConstraint | c.startInterval <= c.endInterval
    witness SumConstraint(0, 0, 0.0)

  function OrderMessage(startInterval: int, endInterval: int): string {
    "Sum constraint start interval " + IntToString(startInterval)
      + " is greater than end interval " + IntToString(endInterval)
  }

  /** The record's compact constructor: rejects a reversed range, accepts any sum. */
  function NewSumConstraint(startInterval: int, endInterval: int, sum: real): (r: Result<ValidSumConstraint, Exception>)
    ensures r.Failure? <==> startInterval > endInterval
    ensures r.Failure? ==> r.error == Exception(IllegalArgument, OrderMessage(startInterval, endInterval))
    ensures r.Success? ==> r.value.startInterval == startInterval && r.value.endInterval == endInterval
                           && r.value.sum == sum
  {
    if startInterval > endInterval then
      Failure(Exception(IllegalArgument, OrderMessage(startInterval, endInterval)))
    else
      Success(SumConstraint(startInterval, endInterval, sum))
  }

  /** The intervals a constraint ranges over. */
  predicate Covers(c: SumConstraint, interval: int) {
    c.startInterval <= interval <= c.endInterval
  }
}
