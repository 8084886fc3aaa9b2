/** The Java exceptions the modelled code throws, with the exact message texts it would carry. */
module Exceptions {
  import opened Text

  datatype Kind =
    | IllegalArgument    // java.lang.IllegalArgumentException
    | IllegalState       // java.lang.IllegalStateException
    | NoSuchElement      // java.util.NoSuchElementException
    | IndexOutOfBounds   // java.lang.IndexOutOfBoundsException
    | NullPointer        // java.lang.NullPointerException
    | SolverFailure      // the project's SolverException

  datatype Exception = Exception(kind: Kind, message: string)

  /** `new ArrayList<>(n)` with a negative capacity. */
  function IllegalCapacity(n: int): Exception {
    Exception(IllegalArgument, "Illegal Capacity: " + IntToString(n))
  }

  /** `Optional.orElseThrow()` on an empty optional. */
  const NoValuePresent: Exception := Exception(NoSuchElement, "No value present")

  /** `List.get(index)` outside the list. */
  function IndexOutOfBoundsFor(index: int, length: int): Exception {
    Exception(IndexOutOfBounds, "Index " + IntToString(index) + " out of bounds for length " + IntToString(length))
  }

  /** `Collectors.toMap` meeting a key twice, both values being 1.0. */
  function DuplicateUnitKey(key: int): Exception {
    Exception(IllegalState, "Duplicate key " + IntToString(key) + " (attempted merging values 1.0 and 1.0)")
  }
}
