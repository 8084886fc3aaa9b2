/**
 * service/mapper/ResultToResultDto: the copy of an optimizer Result into the message sent
 * back (ResultDto). Scalars are copied, the status and the storage modes are translated into
 * the message's enumerations, and each result list is copied element by element in order,
 * keeping the value lists of the profiles and dropping their start intervals.
 */
module ResultDtos {
  import opened Wrappers
  import opened Storages
  import R = Results
  import opened SolverModel
  import Optimizer
  import Tasks

  datatype OptimizationStatusDto = SolutionFound | SolutionNotFound

  datatype StorageModeDto = Disabled | Charging | Discharging

  datatype ContractResultDto = ContractResultDto(id: int, name: string, power: seq<real>, energy: seq<real>, cost: seq<real>)

  datatype StorageResultDto = StorageResultDto(
    id: int,
    name: string,
    charge: seq<real>,
    discharge: seq<real>,
    energy: seq<real>,
    storageMode: seq<StorageModeDto>)

  datatype MovableDemandResultDto = MovableDemandResultDto(id: int, name: string, startInterval: int)

  datatype ResultDto = ResultDto(
    id: int,
    optimizationStatus: OptimizationStatusDto,
    objectiveFunctionValue: real,
    relativeGap: real,
    elapsedTime: real,
    errorMessage: string,
    contractResults: seq<ContractResultDto>,
    storageResults: seq<StorageResultDto>,
    movableDemandResults: seq<MovableDemandResultDto>)

  /** `optimizationStatusMapper`: only SOLUTION_FOUND is found; any other status, or none, is not. */
  function OptimizationStatusMapper(status: Option<R.OptimizationStatus>): (d: OptimizationStatusDto)
    ensures d == SolutionFound <==> status == Some(R.SolutionFound)
    ensures status.None? ==> d == SolutionNotFound
  {
    if status == Some(R.SolutionFound) then SolutionFound else SolutionNotFound
  }

  /** One case of `storageModeListMapper`'s switch: CHARGING and DISCHARGING kept, anything else DISABLED. */
  function StorageModeMapper(mode: StorageMode): (d: StorageModeDto)
    ensures d == StorageModeDto.Charging <==> mode == StorageMode.Charging
    ensures d == StorageModeDto.Discharging <==> mode == StorageMode.Discharging
    ensures d == StorageModeDto.Disabled <==> mode == StorageMode.Disabled
  {
    match mode
    case Charging => StorageModeDto.Charging
    case Discharging => StorageModeDto.Discharging
    case _ => StorageModeDto.Disabled
  }

  /** `storageModeListMapper`: one message mode per mode, in order. */
  method StorageModeListMapper(modes: seq<StorageMode>) returns (dtos: seq<StorageModeDto>)
    ensures |dtos| == |modes|
    ensures forall i :: 0 <= i < |modes| ==> dtos[i] == StorageModeMapper(modes[i])
  {
    dtos := [];
    for i := 0 to |modes|
      invariant |dtos| == i
      invariant forall j :: 0 <= j < i ==> dtos[j] == StorageModeMapper(modes[j])
    {
      dtos := dtos + [StorageModeMapper(modes[i])];
    }
  }

  /** The message record of one contract result. */
  function ContractResultDtoOf(c: R.ContractResult): (d: ContractResultDto)
    ensures d.id == c.id && d.name == c.name
    ensures d.power == c.power.values && d.energy == c.energy.values && d.cost == c.cost.values
  {
    ContractResultDto(c.id, c.name, c.power.values, c.energy.values, c.cost.values)
  }

  /** `mapContractResults`: one message record per contract result, in order. */
  method MapContractResults(results: seq<R.ContractResult>) returns (dtos: seq<ContractResultDto>)
    ensures |dtos| == |results|
    ensures forall i :: 0 <= i < |results| ==>
              && dtos[i].id == results[i].id && dtos[i].name == results[i].name
              && dtos[i].power == results[i].power.values
              && dtos[i].energy == results[i].energy.values
              && dtos[i].cost == results[i].cost.values
  {
    dtos := [];
    for i := 0 to |results|
      invariant |dtos| == i
      invariant forall j :: 0 <= j < i ==> dtos[j] == ContractResultDtoOf(results[j])
    {
      dtos := dtos + [ContractResultDtoOf(results[i])];
    }
  }

  /** `mapStorageResults`: one message record per storage result, in order, modes translated. */
  method MapStorageResults(results: seq<R.StorageResult>) returns (dtos: seq<StorageResultDto>)
    ensures |dtos| == |results|
    ensures forall i :: 0 <= i < |results| ==>
              && dtos[i].id == results[i].id && dtos[i].name == results[i].name
              && dtos[i].charge == results[i].charge.values
              && dtos[i].discharge == results[i].discharge.values
              && dtos[i].energy == results[i].energy.values
              && |dtos[i].storageMode| == |results[i].storageMode.values|
              && forall t :: 0 <= t < |results[i].storageMode.values| ==>
                   dtos[i].storageMode[t] == StorageModeMapper(results[i].storageMode.values[t])
  {
    dtos := [];
    for i := 0 to |results|
      invariant |dtos| == i
      invariant forall j :: 0 <= j < i ==>
                  && dtos[j].id == results[j].id && dtos[j].name == results[j].name
                  && dtos[j].charge == results[j].charge.values
                  && dtos[j].discharge == results[j].discharge.values
                  && dtos[j].energy == results[j].energy.values
                  && |dtos[j].storageMode| == |results[j].storageMode.values|
                  && forall t :: 0 <= t < |results[j].storageMode.values| ==>
                       dtos[j].storageMode[t] == StorageModeMapper(results[j].storageMode.values[t])
    {
      var s := results[i];
      var modes := StorageModeListMapper(s.storageMode.values);
      dtos := dtos + [StorageResultDto(s.id, s.name, s.charge.values, s.discharge.values, s.energy.values, modes)];
    }
  }

  /** `mapMovableDemandResults`: one message record per movable demand result, in order. */
  method MapMovableDemandResults(results: seq<R.MovableDemandResult>) returns (dtos: seq<MovableDemandResultDto>)
    ensures |dtos| == |results|
    ensures forall i :: 0 <= i < |results| ==>
              dtos[i] == MovableDemandResultDto(results[i].id, results[i].name, results[i].startInterval)
  {
    dtos := [];
    for i := 0 to |results|
      invariant |dtos| == i
      invariant forall j :: 0 <= j < i ==>
                  dtos[j] == MovableDemandResultDto(results[j].id, results[j].name, results[j].startInterval)
    {
      var d := results[i];
      dtos := dtos + [MovableDemandResultDto(d.id, d.name, d.startInterval)];
    }
  }

  /**
   * `map`: the scalars copied, the status translated, and the three lists copied in order.
   * The message's error message is a non-null string, so the result must carry one.
   */
  method Map(result: R.Result) returns (dto: ResultDto)
    requires result.errorMessage.Some?
    ensures dto.id == result.id
    ensures dto.optimizationStatus == OptimizationStatusMapper(result.optimizationStatus)
    ensures dto.objectiveFunctionValue == result.objectiveFunctionValue
    ensures dto.relativeGap == result.relativeGap && dto.elapsedTime == result.elapsedTime
    ensures dto.errorMessage == result.errorMessage.value
    ensures |dto.contractResults| == |result.contractResults|
    ensures forall i :: 0 <= i < |result.contractResults| ==> dto.contractResults[i] == ContractResultDtoOf(result.contractResults[i])
    ensures |dto.storageResults| == |result.storageResults|
    ensures forall i :: 0 <= i < |result.storageResults| ==>
              && dto.storageResults[i].id == result.storageResults[i].id
              && dto.storageResults[i].name == result.storageResults[i].name
              && dto.storageResults[i].charge == result.storageResults[i].charge.values
              && dto.storageResults[i].discharge == result.storageResults[i].discharge.values
              && dto.storageResults[i].energy == result.storageResults[i].energy.values
              && |dto.storageResults[i].storageMode| == |result.storageResults[i].storageMode.values|
              && forall t :: 0 <= t < |result.storageResults[i].storageMode.values| ==>
                   dto.storageResults[i].storageMode[t] == StorageModeMapper(result.storageResults[i].storageMode.values[t])
    ensures |dto.movableDemandResults| == |result.movableDemandResults|
    ensures forall i :: 0 <= i < |result.movableDemandResults| ==>
              dto.movableDemandResults[i] == MovableDemandResultDto(result.movableDemandResults[i].id,
                                                                    result.movableDemandResults[i].name,
                                                                    result.movableDemandResults[i].startInterval)
  {
    var contracts := MapContractResults(result.contractResults);
    var storages := MapStorageResults(result.storageResults);
    var movables := MapMovableDemandResults(result.movableDemandResults);
    dto := ResultDto(result.id, OptimizationStatusMapper(result.optimizationStatus), result.objectiveFunctionValue,
                     result.relativeGap, result.elapsedTime, result.errorMessage.value, contracts, storages, movables);
  }

  /**
   * A result of `solve` always carries a message, so it can be mapped; its message says
   * SOLUTION_FOUND only when the model was built and the engine finished OPTIMAL or
   * SUBOPTIMAL, and the message's error text is then empty.
   */
  lemma SolvedMapsFound(task: Tasks.Task, engine: NativeEngine, maxAllowedTimeOut: int, numericalZero: real,
                        r: R.Result, freed: bool)
    requires Optimizer.SolvedAs(task, engine, maxAllowedTimeOut, numericalZero, r, freed)
    ensures r.errorMessage.Some? && r.id == task.id
    ensures OptimizationStatusMapper(r.optimizationStatus) == SolutionFound ==>
              && Optimizer.BuildRun(task, maxAllowedTimeOut, numericalZero).Success?
              && var run := Optimizer.NativeRunOf(task, engine, maxAllowedTimeOut, numericalZero);
                 run.Finished? && (StatusOfCode(run.code) == Optimal || StatusOfCode(run.code) == Suboptimal)
                 && r.errorMessage == Some("")
  {
    Optimizer.SolvedIdentifies(task, engine, maxAllowedTimeOut, numericalZero, r, freed);
    if r.optimizationStatus == Some(R.SolutionFound) {
      Optimizer.SolvedFound(task, engine, maxAllowedTimeOut, numericalZero, r, freed);
    }
  }
}
