/**
 * The optimizer's output (model/Result with model/contract/ContractResult,
 * model/storage/StorageResult and model/sourcesink/MovableDemandResult). A field the
 * Lombok builder leaves unset is `None` (a reference) or 0 (a primitive).
 */
module Results {
  import opened Wrappers
  import opened Profiles
  import opened Storages

  datatype OptimizationStatus = SolutionFound | SolutionNotFound

  datatype ContractResult = ContractResult(id: int, name: string, power: Profile<real>, energy: Profile<real>, cost: Profile<real>)

  datatype StorageResult = StorageResult(
    id: int,
    name: string,
    charge: Profile<real>,
    discharge: Profile<real>,
    energy: Profile<real>,
    storageMode: Profile<StorageMode>)

  datatype MovableDemandResult = MovableDemandResult(id: int, name: string, startInterval: int)

  datatype Result = Result(
    id: int,
    optimizationStatus: Option<OptimizationStatus>,
    objectiveFunctionValue: real,
    relativeGap: real,
    elapsedTime: real,
    errorMessage: Option<string>,
    contractResults: seq<ContractResult>,
    storageResults: seq<StorageResult>,
    movableDemandResults: seq<MovableDemandResult>)

  /** `Result.builder().id(id)`: every other field at its default. */
  function NewResult(id: int): Result {
    Result(id, None, 0.0, 0.0, 0.0, None, [], [], [])
  }
}
