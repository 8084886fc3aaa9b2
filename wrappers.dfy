/** Option, Result and Outcome values used instead of Java's null, Optional and exceptions. */
module Wrappers {

  datatype Option<+T> = None | Some(value: T) {

    /** Optional.orElse */
    function GetOr(default: T): T {
      match this
      case Some(v) => v
      case None => default
    }
  }

  datatype Result<+R, +E> = Success(value: R) | Failure(error: E)

  datatype Outcome<+E> = Pass | Fail(error: E)

  function Min(a: int, b: int): int { if a <= b then a else b }

  function Max(a: int, b: int): int { if a >= b then a else b }

  function MaxReal(a: real, b: real): real { if a >= b then a else b }

  /** A non-empty set of numbers has an element, the fact a `:|` choice from it needs. */
  lemma NonEmptyHasElement(s: set<int>)
    requires s != {}
    ensures exists x :: x in s
  {
    if forall x :: x !in s {
      assert false;
    }
  }
}
