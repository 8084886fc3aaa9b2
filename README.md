# pvoptimizer in Dafny

A model of the optimisation core of pvoptimizer, a service that plans the electricity flows
of a household with a photovoltaic installation. A task describes a horizon of time intervals
(each with a duration), the PV production and household demand per interval, energy purchase
and sale contracts, energy storages and movable demands (a fixed power profile whose start
interval the optimiser chooses). `OptimizerImpl.solve` turns the task into a mixed-integer
linear programme for lp_solve, solves it, and decodes the solution into a Result: power,
energy and cost per contract; charge, discharge, energy and mode per storage; and the chosen
start interval per movable demand. `ResultToResultDto` then copies the Result into the
outgoing message.

The project has a value layer and an imperative layer:

- **Entities.** The value entities are datatypes. They are the profiles, sum constraints,
  contracts, storages, movable demands and the task, with their builders' `build()` checks,
  `equals` and `hashCode`.
- **The solver model.** The solver's state is a `Model` datatype. It holds the column
  count, the binary columns, the rows, the bounds, the objective, the direction, the
  time-out and the gap. Every `Solver` operation is a `Call` with a pure meaning, `Apply`.
  A call either yields the next model or fails with the exception the Java code throws.
  The meaning of rows and bounds is stated over a column assignment `v` (`Satisfies`,
  `Dot`).
- **The specification of `solve`.** What `solve` does is stated as pure functions:
  - `Allocate` gives the column layout of the three `assign*Variables` phases.
  - `BuildCalls` gives every call of the set-up phases, in the source's order.
  - `DecodeContracts`, `StorageResults` and `MovableResults` decode a solution.
  - `SolvedAs` relates a task, a native engine and the two configuration values to the
    Result and to whether the solver was freed.
- **The imperative layer.** `LpSolve.LpSolveSolver` is a class whose methods change the
  solver state. `ModelBuilder` holds the loops of the set-up phases.
  `Optimizer.OptimizerImpl.Solve` is proved to produce exactly what `SolvedAs` specifies.
- **Lemmas.** Lemmas state what the built programme means:
  - the power balance coefficients of every entity;
  - the storage energy trajectory;
  - the exclusion of simultaneous charge and discharge;
  - the exactly-one-variant rule of movable demands;
  - the objective coefficients;
  - the decoding of every kind of result.

The native lp_solve engine is a parameter, `NativeEngine`. Its `run` gives the outcome of
`solve` on a model: either an exception message, or a status code, objective value, column
values and elapsed time. Its `rejectText` gives the message of a native call that refuses
its columns. Which columns are refused is fixed by the model, not by the parameter: the
native calls behind rows, bounds and the objective are assumed to refuse any column outside
`1..ncols` (`LpSolve.LpSolveSolver.NativeAccepts`).

## Where the model follows the code

- **Decoding failures.** Suppose decoding a contract throws inside `getResult`. This happens
  for a contract that starts after the horizon (`Illegal Capacity`), or one with an
  interval that has no duration in the task's intervals profile, such as a contract that
  starts before that profile (`No value present`, `Decode.MissingDurationFails`). The unit
  price itself is never missing there, because a contract has a price for each of its
  intervals. The result builder then still holds the gap, elapsed time,
  objective value and contract results already set on the found path. The catch clause
  only overwrites the status and the message. `Optimizer.FoundDecodeFailure` states this.
  The solver is not freed on any exception path.
- **Contract power bounds** (service/OptimizerImpl.java, lines 278 and 288) and **energy
  sums** (lines 309 and 324) put interval `k` on column `powerStartIndex + k`. The balance
  row (line 211) and the objective (line 606) use `powerStartIndex + k - startInterval`
  instead. The two agree only for contracts that start at interval 0.
  `RowMeaning.PowerBoundColumn` states this for the bounds and `RowMeaning.EnergySumColumn`
  for the energy sums. The model keeps the code's indexing.
- **Storage bounds.** `build()` checks only the values of a storage's bounds against its
  physical maxima, never their interval keys. A bound for key `k` is put on column `first + k`
  of its block whatever `k` is (`RowMeaning.ExplicitBoundKeysUnchecked`,
  `Storages.BoundKeysUnchecked`). A key at or past the horizon therefore lands on a column
  after the block and a negative key on one before it, which may belong to another block;
  a column past the last one or below 1 makes the native call refuse the bounds.
- **Empty horizon.** A storage on an empty horizon makes `setUpStorageEnergyBalance` throw
  `Index 0 out of bounds for length 0` (`ModelCalls.EnergyBalanceCalls`).

## Model

| member | source | states |
|---|---|---|
| Identity.LongHashCode | src/main/java/com/github/kacperpotapczyk/pvoptimizer/optimizer/model/contract/Contract.java:193-196 | `Long.hashCode`: the exclusive-or of the two 32-bit halves of a 64-bit id, read back as a signed 32-bit int, is always a Java int |
| Identity.IdHashCode | src/main/java/com/github/kacperpotapczyk/pvoptimizer/optimizer/model/contract/Contract.java:193-196 | the hash of an int id is the id itself; the hash of a long id is `Long.hashCode`; both fit in a Java int |
| Identity.LongHashOfSmallId | src/main/java/com/github/kacperpotapczyk/pvoptimizer/optimizer/model/sourcesink/MovableDemand.java:32-35 | `Long.hashCode(v) == v` for every id between 0 and `Integer.MAX_VALUE` |
| Profiles.Profile.Length | src/main/java/com/github/kacperpotapczyk/pvoptimizer/model/utils/Profile.java:38-40 | `getLength` is the number of stored values |
| Profiles.Profile.LastInterval | src/main/java/com/github/kacperpotapczyk/pvoptimizer/model/utils/Profile.java:42-44 | `getLastInterval` lies exactly `getLength` intervals after the start |
| Profiles.Profile.ValueForIndex | src/main/java/com/github/kacperpotapczyk/pvoptimizer/model/utils/Profile.java:46-53 | a value is returned iff the index is in `[0, length)`, and it is the stored value at that index; otherwise empty |
| Profiles.Profile.ValueForInterval | src/main/java/com/github/kacperpotapczyk/pvoptimizer/model/utils/Profile.java:55-62 | a value is returned iff `start <= interval < last`, and it is the value at `interval - start`; the optimizer-side profile and the storage-mode profile have the same lookups |
| Profiles.FromValues | src/main/java/com/github/kacperpotapczyk/pvoptimizer/model/utils/Profile.java:17-20 | the list constructor starts at interval 0 and answers every interval of the list with its value |
| Profiles.NewConstant | src/main/java/com/github/kacperpotapczyk/pvoptimizer/model/utils/Profile.java:30-36 | `new Profile(start, length, value)` throws `Illegal Capacity` iff the length is negative; otherwise it starts at `start`, has `length` values and answers every covered interval with the constant |
| Profiles.NewConstantFromZero | src/main/java/com/github/kacperpotapczyk/pvoptimizer/model/utils/Profile.java:22-28 | `new Profile(length, value)` throws iff the length is negative; otherwise it starts at 0 and holds the constant on every interval |
| SumConstraints.NewSumConstraint | src/main/java/com/github/kacperpotapczyk/pvoptimizer/model/utils/SumConstraint.java:9-17 | the constructor throws `IllegalArgumentException` iff the start interval is after the end interval; otherwise it keeps all three fields |
| Contracts.Contract.IsActiveAt | src/main/java/com/github/kacperpotapczyk/pvoptimizer/model/contract/Contract.java:39-41 | a contract is active at an interval iff its unit-price profile has a value there |
| Contracts.Contract.MaxPowerConstraintForInterval | src/main/java/com/github/kacperpotapczyk/pvoptimizer/model/contract/Contract.java:43-51 | a maximum is returned iff the interval is a key of the maximal-power map, and it is that key's value |
| Contracts.Contract.MinPowerConstraintForInterval | src/main/java/com/github/kacperpotapczyk/pvoptimizer/model/contract/Contract.java:53-61 | a minimum is returned iff the interval is a key of the minimal-power map, and it is that key's value |
| Contracts.BuildContract | src/main/java/com/github/kacperpotapczyk/pvoptimizer/model/contract/Contract.java:198-235 | `build()` succeeds iff every power key and both ends of every energy range lie inside the contract, and then returns all the fields unchanged; otherwise it throws `IllegalStateException`, and an out-of-range minimal-power key is reported as the minimal-power check; the long-id contract builder makes the same checks |
| Contracts.OutOfRangeMaxPowerRejected | src/main/java/com/github/kacperpotapczyk/pvoptimizer/model/contract/Contract.java:103-106 | a maximal-power key outside the contract's intervals makes `build()` fail with the maximal-power message |
| Contracts.EnergyRangePastContractRejected | src/main/java/com/github/kacperpotapczyk/pvoptimizer/model/contract/Contract.java:108-111 | a minimal-energy range that ends after the contract makes `build()` fail with the minimal-energy message |
| Contracts.EnergyRangesActive | src/main/java/com/github/kacperpotapczyk/pvoptimizer/model/contract/Contract.java:108-111 | every interval of an energy range of a built contract (minimal or maximal, here and in the long-id twin) is an interval where the contract is active, because ranges are ordered and both ends were checked |
| Contracts.Equals | src/main/java/com/github/kacperpotapczyk/pvoptimizer/model/contract/Contract.java:113-119 | two contracts are equal iff the other object is a contract with the same id |
| Contracts.HashCode | src/main/java/com/github/kacperpotapczyk/pvoptimizer/optimizer/model/contract/Contract.java:193-196 | the hash of a contract depends on its id alone and fits in a Java int |
| Contracts.EqualsAgreesWithHashCode | src/main/java/com/github/kacperpotapczyk/pvoptimizer/model/contract/Contract.java:113-124 | `equals` is reflexive and symmetric, and equal contracts have equal hash codes |
| Contracts.PutEntry | src/main/java/com/github/kacperpotapczyk/pvoptimizer/model/contract/Contract.java:144-151 | a single power bound creates the map if it was null, sets that one key, and keeps every other key with its value |
| Contracts.AddElement | src/main/java/com/github/kacperpotapczyk/pvoptimizer/model/contract/Contract.java:174-181 | a single energy constraint creates the list if it was null and appends the constraint after the existing ones |
| Contracts.ContractBuilder.constructor | src/main/java/com/github/kacperpotapczyk/pvoptimizer/model/contract/Contract.java:127-136 | a new builder holds the four required fields and no constraint collection |
| Contracts.ContractBuilder.MinPowerConstraints | src/main/java/com/github/kacperpotapczyk/pvoptimizer/model/contract/Contract.java:138-142 | replaces the minimal-power map and nothing else |
| Contracts.ContractBuilder.MinPowerConstraint | src/main/java/com/github/kacperpotapczyk/pvoptimizer/model/contract/Contract.java:144-151 | adds one minimal-power entry and nothing else |
| Contracts.ContractBuilder.MaxPowerConstraints | src/main/java/com/github/kacperpotapczyk/pvoptimizer/model/contract/Contract.java:153-157 | replaces the maximal-power map and nothing else |
| Contracts.ContractBuilder.MaxPowerConstraint | src/main/java/com/github/kacperpotapczyk/pvoptimizer/model/contract/Contract.java:159-166 | adds one maximal-power entry and nothing else |
| Contracts.ContractBuilder.MinEnergyConstraints | src/main/java/com/github/kacperpotapczyk/pvoptimizer/model/contract/Contract.java:168-172 | replaces the minimal-energy list and nothing else |
| Contracts.ContractBuilder.MinEnergyConstraint | src/main/java/com/github/kacperpotapczyk/pvoptimizer/model/contract/Contract.java:174-181 | appends one minimal-energy constraint and nothing else |
| Contracts.ContractBuilder.MaxEnergyConstraints | src/main/java/com/github/kacperpotapczyk/pvoptimizer/model/contract/Contract.java:183-187 | replaces the maximal-energy list and nothing else |
| Contracts.ContractBuilder.MaxEnergyConstraint | src/main/java/com/github/kacperpotapczyk/pvoptimizer/model/contract/Contract.java:189-196 | appends one maximal-energy constraint and nothing else |
| Contracts.ContractBuilder.Build | src/main/java/com/github/kacperpotapczyk/pvoptimizer/model/contract/Contract.java:198-235 | `build()` returns the result of the four checks on the builder's fields; a built contract's constraints are all in range |
| Storages.BuildStorage | src/main/java/com/github/kacperpotapczyk/pvoptimizer/model/storage/Storage.java:360-413 | a built storage carries exactly the builder's fields; every failure is an `IllegalStateException` |
| Storages.BuildAcceptsExactlyValid | src/main/java/com/github/kacperpotapczyk/pvoptimizer/model/storage/Storage.java:360-413 | `build()` succeeds iff the initial energy is in `[0, maxCapacity]` and every bound value is at most the matching maximum; a bad initial energy is reported first; a builder with only the required fields succeeds iff `maxCapacity >= 0` |
| Storages.ChargeBoundAboveMaximumRejected | src/main/java/com/github/kacperpotapczyk/pvoptimizer/model/storage/Storage.java:143-146 | a maximal-charge bound above `maxCharge` makes `build()` fail with that check's message, and one at or below it is accepted |
| Storages.BoundKeysUnchecked | src/main/java/com/github/kacperpotapczyk/pvoptimizer/model/storage/Storage.java:175-178 | a bound key is never checked: an energy bound at or below the capacity is accepted at any interval, inside the horizon or not |
| Storages.Equals | src/main/java/com/github/kacperpotapczyk/pvoptimizer/model/storage/Storage.java:193-198 | two storages are equal iff the other object is a storage with the same id |
| Storages.HashCode | src/main/java/com/github/kacperpotapczyk/pvoptimizer/model/storage/Storage.java:204-207 | the hash of a storage is its id |
| Storages.EqualStoragesHashAlike | src/main/java/com/github/kacperpotapczyk/pvoptimizer/model/storage/Storage.java:193-207 | equal storages hash alike, and changing the name or the capacity does not change equality |
| Storages.AddToSet | src/main/java/com/github/kacperpotapczyk/pvoptimizer/model/storage/Storage.java:331-338 | adding one forbidden interval creates the set if it was null, holds that interval and the old ones, and stays free of duplicates |
| Storages.StorageBuilder.constructor | src/main/java/com/github/kacperpotapczyk/pvoptimizer/model/storage/Storage.java:213-227 | a new builder holds the five required fields, initial energy 0 and no bound or forbidden collection |
| Storages.StorageBuilder.InitialEnergy | src/main/java/com/github/kacperpotapczyk/pvoptimizer/model/storage/Storage.java:229-232 | sets the initial energy and nothing else |
| Storages.StorageBuilder.MinChargeConstraint | src/main/java/com/github/kacperpotapczyk/pvoptimizer/model/storage/Storage.java:234-241 | adds one minimal-charge entry, creating the map if needed |
| Storages.StorageBuilder.MinChargeConstraints | src/main/java/com/github/kacperpotapczyk/pvoptimizer/model/storage/Storage.java:243-247 | replaces the minimal-charge map |
| Storages.StorageBuilder.MaxChargeConstraint | src/main/java/com/github/kacperpotapczyk/pvoptimizer/model/storage/Storage.java:249-256 | adds one maximal-charge entry, creating the map if needed |
| Storages.StorageBuilder.MaxChargeConstraints | src/main/java/com/github/kacperpotapczyk/pvoptimizer/model/storage/Storage.java:258-262 | replaces the maximal-charge map |
| Storages.StorageBuilder.MaxDischargeConstraint | src/main/java/com/github/kacperpotapczyk/pvoptimizer/model/storage/Storage.java:264-271 | adds one maximal-discharge entry, creating the map if needed |
| Storages.StorageBuilder.MaxDischargeConstraints | src/main/java/com/github/kacperpotapczyk/pvoptimizer/model/storage/Storage.java:273-277 | replaces the maximal-discharge map |
| Storages.StorageBuilder.MinDischargeConstraint | src/main/java/com/github/kacperpotapczyk/pvoptimizer/model/storage/Storage.java:279-286 | adds one minimal-discharge entry, creating the map if needed |
| Storages.StorageBuilder.MinDischargeConstraints | src/main/java/com/github/kacperpotapczyk/pvoptimizer/model/storage/Storage.java:288-292 | replaces the minimal-discharge map |
| Storages.StorageBuilder.MinEnergyConstraint | src/main/java/com/github/kacperpotapczyk/pvoptimizer/model/storage/Storage.java:295-302 | adds one minimal-energy entry, creating the map if needed |
| Storages.StorageBuilder.MinEnergyConstraints | src/main/java/com/github/kacperpotapczyk/pvoptimizer/model/storage/Storage.java:304-308 | replaces the minimal-energy map |
| Storages.StorageBuilder.MaxEnergyConstraint | src/main/java/com/github/kacperpotapczyk/pvoptimizer/model/storage/Storage.java:310-317 | adds one maximal-energy entry, creating the map if needed |
| Storages.StorageBuilder.MaxEnergyConstraints | src/main/java/com/github/kacperpotapczyk/pvoptimizer/model/storage/Storage.java:319-323 | replaces the maximal-energy map |
| Storages.StorageBuilder.ForbiddenChargeIntervals | src/main/java/com/github/kacperpotapczyk/pvoptimizer/model/storage/Storage.java:325-329 | replaces the forbidden-charge set |
| Storages.StorageBuilder.ForbiddenChargeInterval | src/main/java/com/github/kacperpotapczyk/pvoptimizer/model/storage/Storage.java:331-338 | adds one forbidden-charge interval to the set |
| Storages.StorageBuilder.ForbiddenDischargeIntervals | src/main/java/com/github/kacperpotapczyk/pvoptimizer/model/storage/Storage.java:340-344 | replaces the forbidden-discharge set |
| Storages.StorageBuilder.ForbiddenDischargeInterval | src/main/java/com/github/kacperpotapczyk/pvoptimizer/model/storage/Storage.java:346-353 | adds one forbidden-discharge interval to the set |
| Storages.StorageBuilder.Build | src/main/java/com/github/kacperpotapczyk/pvoptimizer/model/storage/Storage.java:360-413 | `build()` returns the checked storage described by the builder's fields |
| MovableDemands.Equals | src/main/java/com/github/kacperpotapczyk/pvoptimizer/model/sourcesink/MovableDemand.java:8-14 | two movable demands are equal iff the other object is a movable demand with the same id |
| MovableDemands.HashCode | src/main/java/com/github/kacperpotapczyk/pvoptimizer/optimizer/model/sourcesink/MovableDemand.java:32-35 | the hash depends on the id alone, fits in a Java int, and is the id itself for an int id |
| MovableDemands.EqualityIsIdentity | src/main/java/com/github/kacperpotapczyk/pvoptimizer/model/sourcesink/MovableDemand.java:6-19 | equality holds iff the ids agree, whatever the name, profile and start intervals; equal demands hash alike; no other type is equal |
| MovableDemands.LongAndIntHashAgree | src/main/java/com/github/kacperpotapczyk/pvoptimizer/optimizer/model/sourcesink/MovableDemand.java:20-35 | for a non-negative id that fits in an int, the long-id hash and the int-id hash are the same |
| Tasks.Task.OptimizationHorizonLength | src/main/java/com/github/kacperpotapczyk/pvoptimizer/model/Task.java:71-74 | the horizon is the number of intervals of the task's interval profile |
| Tasks.DistinctById | src/main/java/com/github/kacperpotapczyk/pvoptimizer/model/Task.java:54-65 | adding elements to a `@Singular` set keeps one element per id, only elements that were added, and every id that was added |
| Tasks.BuildTask | src/main/java/com/github/kacperpotapczyk/pvoptimizer/model/Task.java:20-65 | a task without an id fails with Lombok's `NullPointerException` message, and only then; otherwise the timeout defaults to 0, the gap to 0.0, the horizon is the interval count, and each collection holds one element per id |
| Tasks.RepeatedContractIdIgnored | src/main/java/com/github/kacperpotapczyk/pvoptimizer/model/Task.java:54-56 | adding a contract whose id is already in the set leaves the set as it was |
| SolverModel.FixRows | src/main/java/com/github/kacperpotapczyk/pvoptimizer/solver/LpSolveSolver.java:81-95 | `fixVariables` adds one equality row per entry, in order, each forcing that column to the value |
| SolverModel.ApplyAllAppend | src/main/java/com/github/kacperpotapczyk/pvoptimizer/solver/Solver.java:11-16 | running the calls `a + b` on a model is running `a`, then `b` if `a` succeeded |
| SolverModel.ApplyAllKeeps | src/main/java/com/github/kacperpotapczyk/pvoptimizer/solver/Solver.java:11-16 | adding rows, bounds and an objective never changes the column count, the binary columns, the direction, the time-out or the gap |
| SolverModel.PerformedOne | src/main/java/com/github/kacperpotapczyk/pvoptimizer/solver/LpSolveSolver.java:309-334 | a single call is performed iff it succeeds with the model it computes, or fails with an exception message that describes its failure |
| SolverModel.PerformedNothing | src/main/java/com/github/kacperpotapczyk/pvoptimizer/solver/Solver.java:11-16 | no calls leave the model as it was |
| SolverModel.PerformedThen | src/main/java/com/github/kacperpotapczyk/pvoptimizer/solver/Solver.java:11-16 | performing `a` and then `b` is performing `a + b` |
| SolverModel.PerformedFailed | src/main/java/com/github/kacperpotapczyk/pvoptimizer/solver/Solver.java:11-16 | once a call throws, the calls after it are not run and the same exception ends the sequence |
| SolverModel.PerformedFailedPrefix | src/main/java/com/github/kacperpotapczyk/pvoptimizer/solver/Solver.java:11-16 | a failure of a prefix is the failure of every sequence that extends it |
| SolverModel.Block | src/main/java/com/github/kacperpotapczyk/pvoptimizer/solver/LpSolveSolver.java:43-59 | a block holds exactly the `count` columns starting at `first` |
| SolverModel.AddColumns | src/main/java/com/github/kacperpotapczyk/pvoptimizer/solver/LpSolveSolver.java:43-78 | `addVariables` and `addBinaryVariables` return the index after the last column, add `max(n, 0)` columns, mark them binary only for the binary call, and change nothing else |
| SolverModel.SuccessiveAllocationsDisjoint | src/main/java/com/github/kacperpotapczyk/pvoptimizer/solver/LpSolveSolver.java:43-78 | two successive column blocks are adjacent, do not overlap, and are both valid columns of the resulting model |
| SolverModel.UnitWeights | src/main/java/com/github/kacperpotapczyk/pvoptimizer/solver/LpSolveSolver.java:104-110 | the sum constraints give weight 1 to exactly the listed columns |
| SolverModel.FirstRepeat | src/main/java/com/github/kacperpotapczyk/pvoptimizer/solver/LpSolveSolver.java:158-164 | a list of columns has no repeated column iff no repeat is found; a repeat found occurs earlier in the list |
| SolverModel.SetOf | src/main/java/com/github/kacperpotapczyk/pvoptimizer/solver/LpSolveSolver.java:158-164 | the set built from a list of columns holds exactly the listed columns |
| SolverModel.StatusOfCode | src/main/java/com/github/kacperpotapczyk/pvoptimizer/solver/LpSolveSolver.java:242-258 | codes 0, 1, 2, 3 and 7 are OPTIMAL, SUBOPTIMAL, INFEASIBLE, UNBOUNDED and TIMEOUT; every other code is ERROR |
| SolverModel.SolutionMap | src/main/java/com/github/kacperpotapczyk/pvoptimizer/solver/LpSolveSolver.java:271-285 | `getSolution` maps exactly the columns `1..ncols` to their values |
| SolverModel.DotInsert | src/main/java/com/github/kacperpotapczyk/pvoptimizer/solver/LpSolveSolver.java:309-334 | adding a new column weight to a row adds that weight times the column's value to the row's sum |
| SolverModel.DotUnchanged | src/main/java/com/github/kacperpotapczyk/pvoptimizer/solver/LpSolveSolver.java:309-334 | two rows with the same weights on the columns `[lo, hi)` have the same sum there |
| SolverModel.DotEmpty | src/main/java/com/github/kacperpotapczyk/pvoptimizer/solver/LpSolveSolver.java:309-334 | a row without weights sums to 0 |
| SolverModel.Dot2 | src/main/java/com/github/kacperpotapczyk/pvoptimizer/solver/LpSolveSolver.java:309-334 | the sum of a row with two distinct columns is the sum of their two weighted values |
| SolverModel.Dot3 | src/main/java/com/github/kacperpotapczyk/pvoptimizer/solver/LpSolveSolver.java:309-334 | the sum of a row with three distinct columns is the sum of their weighted values |
| SolverModel.Dot4 | src/main/java/com/github/kacperpotapczyk/pvoptimizer/solver/LpSolveSolver.java:309-334 | the sum of a row with four distinct columns is the sum of their weighted values |
| SolverModel.DotIgnoresUnlisted | src/main/java/com/github/kacperpotapczyk/pvoptimizer/solver/LpSolveSolver.java:309-334 | a row's sum depends only on the values of the columns it weights |
| SolverModel.DotNoKeys | src/main/java/com/github/kacperpotapczyk/pvoptimizer/solver/LpSolveSolver.java:309-334 | a range of columns without weights sums to 0 |
| SolverModel.DotSplit | src/main/java/com/github/kacperpotapczyk/pvoptimizer/solver/LpSolveSolver.java:309-334 | a row's sum over a range is the sum over its two halves |
| SolverModel.DotWithin | src/main/java/com/github/kacperpotapczyk/pvoptimizer/solver/LpSolveSolver.java:309-334 | a row's sum is unchanged when the range is narrowed to one that still holds every weighted column |
| SolverModel.FixRowMeaning | src/main/java/com/github/kacperpotapczyk/pvoptimizer/solver/LpSolveSolver.java:81-95 | a fix row holds iff the column takes exactly the fixed value |
| SolverModel.ImplicationRowMeaning | src/main/java/com/github/kacperpotapczyk/pvoptimizer/solver/LpSolveSolver.java:167-174 | the implication row holds iff `x - bigM * b <= 0` |
| SolverModel.ImplicationForcesBinary | src/main/java/com/github/kacperpotapczyk/pvoptimizer/solver/Solver.java:104-122 | with a binary `b` and a positive `bigM`: a positive `x` forces `b = 1`; `x = 0` always satisfies the row; `b = 1` allows any `x` up to `bigM` |
| SolverModel.SumImplicationForcesBinary | src/main/java/com/github/kacperpotapczyk/pvoptimizer/solver/LpSolveSolver.java:177-184 | the same holds for the sum of the listed columns in place of `x` |
| SolverModel.SetObjectiveReplaces | src/main/java/com/github/kacperpotapczyk/pvoptimizer/solver/LpSolveSolver.java:187-205 | `setObjectiveFunction` replaces the whole objective: a listed column gets its coefficient and any other column gets 0; the objective's value depends only on the listed columns |
| Layouts.ContiguousOrdered | src/main/java/com/github/kacperpotapczyk/pvoptimizer/service/OptimizerImpl.java:111-187 | column blocks allocated one after another are ordered and lie inside the allocated range |
| Layouts.ContiguousSnoc | src/main/java/com/github/kacperpotapczyk/pvoptimizer/service/OptimizerImpl.java:111-187 | a block allocated right after a contiguous run extends the run |
| Layouts.ContiguousAppend | src/main/java/com/github/kacperpotapczyk/pvoptimizer/service/OptimizerImpl.java:111-187 | two contiguous runs that meet form one run |
| Layouts.MovableSpansPrefix | src/main/java/com/github/kacperpotapczyk/pvoptimizer/service/OptimizerImpl.java:149-187 | the blocks of the first demands are a prefix of the blocks of all demands |
| Layouts.MovableSpansIndex | src/main/java/com/github/kacperpotapczyk/pvoptimizer/service/OptimizerImpl.java:149-187 | variant `j` of demand `d` has its block at its position among all variant blocks |
| Layouts.VariantPositionMonotone | src/main/java/com/github/kacperpotapczyk/pvoptimizer/service/OptimizerImpl.java:149-187 | positions of variant blocks grow with the demand index |
| Layouts.AllocateContractsSnoc | src/main/java/com/github/kacperpotapczyk/pvoptimizer/service/OptimizerImpl.java:111-127 | allocating one more contract adds its `min(length, horizon - start)` power columns right after the previous ones |
| Layouts.AllocateContracts | src/main/java/com/github/kacperpotapczyk/pvoptimizer/service/OptimizerImpl.java:111-127 | each contract gets one block of `min(contract length, horizon - start)` columns, in task order, contiguous from the first free column; nothing but the column count changes |
| Layouts.AddStorage | src/main/java/com/github/kacperpotapczyk/pvoptimizer/service/OptimizerImpl.java:129-147 | one storage gets four horizon-long blocks (charge, discharge, binary charge indicator, energy) from the first free column; only the indicators are binary |
| Layouts.AllocateStoragesSnoc | src/main/java/com/github/kacperpotapczyk/pvoptimizer/service/OptimizerImpl.java:129-147 | allocating one more storage extends the storage layout by its four blocks |
| Layouts.AllocateStorages | src/main/java/com/github/kacperpotapczyk/pvoptimizer/service/OptimizerImpl.java:129-147 | every storage has four contiguous horizon-long blocks in task order, and the binary columns grow by exactly the indicator blocks |
| Layouts.AddVariant | src/main/java/com/github/kacperpotapczyk/pvoptimizer/service/OptimizerImpl.java:149-187 | a start-interval variant gets its power columns, cut at the horizon, followed by one binary indicator |
| Layouts.AllocateVariantsSnoc | src/main/java/com/github/kacperpotapczyk/pvoptimizer/service/OptimizerImpl.java:149-187 | allocating one more variant extends the demand's variants by its block |
| Layouts.AllocateVariants | src/main/java/com/github/kacperpotapczyk/pvoptimizer/service/OptimizerImpl.java:149-187 | the variants of one demand follow its start intervals in order, each with its cut length and its indicator |
| Layouts.AllocateMovablesSnoc | src/main/java/com/github/kacperpotapczyk/pvoptimizer/service/OptimizerImpl.java:149-187 | allocating one more demand extends the layout by its variants |
| Layouts.AllocateMovables | src/main/java/com/github/kacperpotapczyk/pvoptimizer/service/OptimizerImpl.java:149-187 | every movable demand gets one variant per start interval, contiguous, with binary indicators |
| Layouts.AllocateJoin | src/main/java/com/github/kacperpotapczyk/pvoptimizer/service/OptimizerImpl.java:111-187 | contracts, then storages, then movable demands form one contiguous run of blocks with the right shapes |
| Layouts.Allocate | src/main/java/com/github/kacperpotapczyk/pvoptimizer/service/OptimizerImpl.java:111-187 | the three assignment phases give every entity its shaped blocks, one contiguous run from the first free column to the new column count, changing only the column count and binary set |
| ModelCalls.BalanceCalls | src/main/java/com/github/kacperpotapczyk/pvoptimizer/service/OptimizerImpl.java:189-249 | the power balance is one equality row per horizon interval |
| ModelCalls.ContractCallGroups | src/main/java/com/github/kacperpotapczyk/pvoptimizer/service/OptimizerImpl.java:251-266 | one group of power and energy rows per contract; the power bounds mean what `RowMeaning.PowerBoundColumn` states and the energy rows what `RowMeaning.EnergyCallsMeaning` and `RowMeaning.EnergySumColumn` state |
| ModelCalls.EnergyCalls | src/main/java/com/github/kacperpotapczyk/pvoptimizer/service/OptimizerImpl.java:295-331 | one energy-sum row per energy constraint; row i's meaning is `RowMeaning.EnergyCallsMeaning` |
| ModelCalls.EnergyBalanceCalls | src/main/java/com/github/kacperpotapczyk/pvoptimizer/service/OptimizerImpl.java:358-385 | an empty horizon throws `IndexOutOfBoundsException` (index 0, length 0) at the first interval's duration; otherwise there is one balance row per interval |
| ModelCalls.ModeCallGroups | src/main/java/com/github/kacperpotapczyk/pvoptimizer/service/OptimizerImpl.java:387-412 | one pair of mode rows per horizon interval |
| ModelCalls.StorageCallGroups | src/main/java/com/github/kacperpotapczyk/pvoptimizer/service/OptimizerImpl.java:333-356 | one group of rows and bounds per storage |
| ModelCalls.LinkCalls | src/main/java/com/github/kacperpotapczyk/pvoptimizer/service/OptimizerImpl.java:565-576 | one link row per power column of a variant |
| ModelCalls.LinkCallGroups | src/main/java/com/github/kacperpotapczyk/pvoptimizer/service/OptimizerImpl.java:555-586 | one group of link rows per variant |
| ModelCalls.ShapedFits | src/main/java/com/github/kacperpotapczyk/pvoptimizer/service/OptimizerImpl.java:149-187 | every allocated variant's power block fits in its demand's profile |
| ModelCalls.MovableCallGroups | src/main/java/com/github/kacperpotapczyk/pvoptimizer/service/OptimizerImpl.java:555-586 | one group of rows per movable demand |
| ModelCalls.ObjectiveEntries | src/main/java/com/github/kacperpotapczyk/pvoptimizer/service/OptimizerImpl.java:588-622 | one objective entry slot per horizon interval for each contract |
| ModelCalls.ObjectiveEntryGroups | src/main/java/com/github/kacperpotapczyk/pvoptimizer/service/OptimizerImpl.java:588-622 | one group of objective entries per contract |
| ModelCalls.ContractBalanceEntries | src/main/java/com/github/kacperpotapczyk/pvoptimizer/service/OptimizerImpl.java:208-213 | one balance entry slot per contract at each interval |
| ModelCalls.ChargeBalanceEntries | src/main/java/com/github/kacperpotapczyk/pvoptimizer/service/OptimizerImpl.java:216-221 | one charge entry per storage at each interval |
| ModelCalls.DischargeBalanceEntries | src/main/java/com/github/kacperpotapczyk/pvoptimizer/service/OptimizerImpl.java:223-228 | one discharge entry per storage at each interval |
| ModelCalls.VariantBalanceEntries | src/main/java/com/github/kacperpotapczyk/pvoptimizer/service/OptimizerImpl.java:230-246 | one entry slot per variant of a demand at each interval |
| Balance.Separate | src/main/java/com/github/kacperpotapczyk/pvoptimizer/service/OptimizerImpl.java:111-187 | columns of two different blocks are different, the earlier block's being smaller |
| Balance.Inside | src/main/java/com/github/kacperpotapczyk/pvoptimizer/service/OptimizerImpl.java:111-187 | every column of an allocated block lies in the allocated range |
| Balance.SpanPositions | src/main/java/com/github/kacperpotapczyk/pvoptimizer/service/OptimizerImpl.java:111-187 | the layout's blocks are the contract blocks, then the four-block storage runs, then the variant blocks |
| Balance.VariantSpanPosition | src/main/java/com/github/kacperpotapczyk/pvoptimizer/service/OptimizerImpl.java:149-187 | variant `j` of demand `d` owns the block after the contracts and storages at its variant position |
| Balance.ContractColumnInBlock | src/main/java/com/github/kacperpotapczyk/pvoptimizer/service/OptimizerImpl.java:208-213 | at an interval where the contract is active, its power column `power + t - start` lies in its block |
| Balance.MovableEntriesAfter | src/main/java/com/github/kacperpotapczyk/pvoptimizer/service/OptimizerImpl.java:230-246 | every movable-demand entry of the balance row lies after all contract and storage columns |
| Balance.MovableEntriesNegative | src/main/java/com/github/kacperpotapczyk/pvoptimizer/service/OptimizerImpl.java:230-246 | every movable-demand entry of the balance row has weight -1 |
| Balance.ContractEntryLocation | src/main/java/com/github/kacperpotapczyk/pvoptimizer/service/OptimizerImpl.java:208-213 | a contract's balance entry lies in that contract's block |
| Balance.ChargeEntryLocation | src/main/java/com/github/kacperpotapczyk/pvoptimizer/service/OptimizerImpl.java:216-221 | a storage's charge entry is its charge column at the interval with weight -1 |
| Balance.DischargeEntryLocation | src/main/java/com/github/kacperpotapczyk/pvoptimizer/service/OptimizerImpl.java:223-228 | a storage's discharge entry is its discharge column at the interval with weight +1 |
| Balance.MovableEntryLocation | src/main/java/com/github/kacperpotapczyk/pvoptimizer/service/OptimizerImpl.java:230-246 | a movable entry lies after the contract and storage blocks and has weight -1 |
| Balance.EntryLocation | src/main/java/com/github/kacperpotapczyk/pvoptimizer/service/OptimizerImpl.java:189-249 | every entry of an interval's balance row is placed in its own entity's block with the weight of its kind |
| Balance.ContractBalanceCoefficient | src/main/java/com/github/kacperpotapczyk/pvoptimizer/service/OptimizerImpl.java:208-213 | in the balance row of an interval where a contract is active, its power column has weight +1 for a purchase and -1 for a sale |
| Balance.ChargeBalanceCoefficient | src/main/java/com/github/kacperpotapczyk/pvoptimizer/service/OptimizerImpl.java:216-221 | in every balance row each storage's charge column at that interval has weight -1 |
| Balance.DischargeBalanceCoefficient | src/main/java/com/github/kacperpotapczyk/pvoptimizer/service/OptimizerImpl.java:223-228 | in every balance row each storage's discharge column at that interval has weight +1 |
| Balance.VariantEntry | src/main/java/com/github/kacperpotapczyk/pvoptimizer/service/OptimizerImpl.java:230-246 | a variant covering interval `t` contributes the entry `(power + t - start, -1)` to that balance row |
| Balance.VariantBalanceCoefficient | src/main/java/com/github/kacperpotapczyk/pvoptimizer/service/OptimizerImpl.java:230-246 | for every variant covering the interval, its power column `power + t - start` has weight -1 in the balance row, whatever other entries are written |
| Balance.BalanceColumnsAllocated | src/main/java/com/github/kacperpotapczyk/pvoptimizer/service/OptimizerImpl.java:189-249 | every column of a balance row is an allocated column |
| RowMeaning.FirstBalanceArith | src/main/java/com/github/kacperpotapczyk/pvoptimizer/service/OptimizerImpl.java:368-372 | the first energy row's sum equals its right-hand side iff `e0 = initial + d0 * (charge - discharge)` |
| RowMeaning.FirstBalanceRow | src/main/java/com/github/kacperpotapczyk/pvoptimizer/service/OptimizerImpl.java:368-372 | the first energy row holds iff the first energy is the initial energy plus the first interval's net charge |
| RowMeaning.FirstBalanceMeaning | src/main/java/com/github/kacperpotapczyk/pvoptimizer/service/OptimizerImpl.java:368-372 | the same, for the columns of any allocated storage |
| RowMeaning.NextBalanceArith | src/main/java/com/github/kacperpotapczyk/pvoptimizer/service/OptimizerImpl.java:375-384 | the later energy rows' weighted sum is `e(t-1) - e(t) + dt * charge - dt * discharge` |
| RowMeaning.NextBalanceRow | src/main/java/com/github/kacperpotapczyk/pvoptimizer/service/OptimizerImpl.java:375-384 | that sum over the four distinct columns of interval `t` |
| RowMeaning.NextBalanceSum | src/main/java/com/github/kacperpotapczyk/pvoptimizer/service/OptimizerImpl.java:375-384 | the same, for the columns of any allocated storage |
| RowMeaning.NextBalanceEquation | src/main/java/com/github/kacperpotapczyk/pvoptimizer/service/OptimizerImpl.java:375-384 | the sum is zero iff `e(t) = e(t-1) + dt * (charge - discharge)` |
| RowMeaning.NextBalanceMeaning | src/main/java/com/github/kacperpotapczyk/pvoptimizer/service/OptimizerImpl.java:375-384 | the row for interval `t` holds iff the energy follows from the previous energy and the interval's net charge |
| RowMeaning.EnergyTrajectory | src/main/java/com/github/kacperpotapczyk/pvoptimizer/service/OptimizerImpl.java:358-385 | when all energy-balance rows hold, the energy at every interval is the initial energy plus the accumulated net charge times duration |
| RowMeaning.ModeRowsExclusive | src/main/java/com/github/kacperpotapczyk/pvoptimizer/service/OptimizerImpl.java:387-412 | with a binary indicator, the charge row holds iff `charge <= bigM * ind`, the discharge row iff `discharge <= bigM * (1 - ind)`, and together they forbid charging and discharging at once |
| RowMeaning.ModeRows | src/main/java/com/github/kacperpotapczyk/pvoptimizer/service/OptimizerImpl.java:387-412 | the same for three distinct columns |
| RowMeaning.ModeArith | src/main/java/com/github/kacperpotapczyk/pvoptimizer/service/OptimizerImpl.java:387-412 | the arithmetic behind the two mode rows |
| RowMeaning.BigMCoversLimits | src/main/java/com/github/kacperpotapczyk/pvoptimizer/service/OptimizerImpl.java:346 | the storage's bigM is at least both its maximal charge and its maximal discharge, and is positive when either is |
| RowMeaning.LinkMeaning | src/main/java/com/github/kacperpotapczyk/pvoptimizer/service/OptimizerImpl.java:565-576 | a link row holds iff the variant's power at offset `i` equals the demand profile's value times the variant's indicator |
| RowMeaning.UnitSumCountsOnes | src/main/java/com/github/kacperpotapczyk/pvoptimizer/service/OptimizerImpl.java:579-584 | with binary columns, a unit-weight sum counts the columns equal to 1 |
| RowMeaning.ExactlyOneVariant | src/main/java/com/github/kacperpotapczyk/pvoptimizer/service/OptimizerImpl.java:579-584 | the indicator sum row holds iff exactly one variant indicator of the demand is 1 |
| RowMeaning.UpperBoundOfEveryInterval | src/main/java/com/github/kacperpotapczyk/pvoptimizer/service/OptimizerImpl.java:414-451 | every interval of a storage bound block is bounded, by the explicit value when one is given for it and by the physical maximum otherwise |
| RowMeaning.ExplicitBoundKeysUnchecked | src/main/java/com/github/kacperpotapczyk/pvoptimizer/service/OptimizerImpl.java:414-451 | an explicit bound is placed at `first + key` whatever the key, with its value |
| RowMeaning.PowerBoundColumn | src/main/java/com/github/kacperpotapczyk/pvoptimizer/service/OptimizerImpl.java:268-293 | a contract power bound for key `k` is put on column `power + k`; that is the contract's power column for interval `k` iff the contract starts at interval 0 |
| RowMeaning.EnergySumColumn | src/main/java/com/github/kacperpotapczyk/pvoptimizer/service/OptimizerImpl.java:302-328 | an energy row weights column `power + t` by the duration of `t` exactly for the horizon intervals `t` in the constraint's range and weights no other column; that column is the contract's balance and objective column for `t` iff the contract starts at interval 0 |
| RowMeaning.EnergyWeightsPrefix | src/main/java/com/github/kacperpotapczyk/pvoptimizer/service/OptimizerImpl.java:305-310 | the energy row's sum over the columns `power .. power + n - 1` is the duration-weighted power of the in-range intervals below `n` |
| RowMeaning.EnergyRowMeaning | src/main/java/com/github/kacperpotapczyk/pvoptimizer/service/OptimizerImpl.java:295-331 | when every in-range interval has a duration and a valid column, the energy call is a weighted-sum row with the constraint's sense and sum whose left side is the duration-weighted power of columns `power + t` over the in-range intervals |
| RowMeaning.EnergyCallsMeaning | src/main/java/com/github/kacperpotapczyk/pvoptimizer/service/OptimizerImpl.java:295-331 | row i of a contract's minimal (`>=`) or maximal (`<=`) energy rows holds iff constraint i's duration-weighted power sum compares so with its sum |
| Objective.ObjectiveEntriesInBlock | src/main/java/com/github/kacperpotapczyk/pvoptimizer/service/OptimizerImpl.java:588-622 | every objective entry of a contract is its power column at that interval and lies in its block |
| Objective.ObjectiveCoefficient | src/main/java/com/github/kacperpotapczyk/pvoptimizer/service/OptimizerImpl.java:588-622 | at an active interval, a contract's power column has objective coefficient `unit price * duration`, negated for a sale |
| Objective.ObjectiveOnlyOnContracts | src/main/java/com/github/kacperpotapczyk/pvoptimizer/service/OptimizerImpl.java:588-622 | the objective has coefficients only on contract columns, none on storage or movable-demand columns |
| Decode.Slice | src/main/java/com/github/kacperpotapczyk/pvoptimizer/service/OptimizerImpl.java:657-662 | reading a column range from the solution gives at most one value per column |
| Decode.SliceOfPresent | src/main/java/com/github/kacperpotapczyk/pvoptimizer/service/OptimizerImpl.java:657-662 | when every column of the range is in the solution, the slice holds their values in order |
| Decode.ContractEnergy | src/main/java/com/github/kacperpotapczyk/pvoptimizer/service/OptimizerImpl.java:664-674 | a negative contract length throws `Illegal Capacity`; otherwise energy at `i` is power times the interval's duration |
| Decode.ContractCostForEnergy | src/main/java/com/github/kacperpotapczyk/pvoptimizer/service/OptimizerImpl.java:807-815 | the cost succeeds iff the contract has a price for every energy value; otherwise `No value present`; cost at `i` is unit price times energy |
| Decode.Products | src/main/java/com/github/kacperpotapczyk/pvoptimizer/service/OptimizerImpl.java:664-674 | the element-wise product has one value per element of the first list |
| Decode.DecodeContract | src/main/java/com/github/kacperpotapczyk/pvoptimizer/service/OptimizerImpl.java:646-686 | decoding one contract matches the specified outcome of `getContractsResults` for it |
| Decode.ContractDecoded | src/main/java/com/github/kacperpotapczyk/pvoptimizer/service/OptimizerImpl.java:646-686 | when the power columns and the durations are present, a contract result has the contract's id, name and start, and power, energy and cost per interval as power, power times duration and price times energy |
| Decode.ContractAfterHorizonFails | src/main/java/com/github/kacperpotapczyk/pvoptimizer/service/OptimizerImpl.java:664-669 | a contract that starts after the horizon has a negative column count and fails with `Illegal Capacity` |
| Decode.MissingDurationFails | src/main/java/com/github/kacperpotapczyk/pvoptimizer/service/OptimizerImpl.java:664-669 | a contract interval without a duration fails with `No value present` |
| Decode.ModeOf | src/main/java/com/github/kacperpotapczyk/pvoptimizer/service/OptimizerImpl.java:727-766 | mode is CHARGING iff only the charge is above the numerical zero, DISCHARGING iff only the discharge is, and DISABLED iff both or neither are |
| Decode.StorageDecoded | src/main/java/com/github/kacperpotapczyk/pvoptimizer/service/OptimizerImpl.java:688-777 | a storage result has the storage's id and name and, per interval, the charge, discharge and energy columns' values and the mode they give |
| Decode.IndicatorStartsOf | src/main/java/com/github/kacperpotapczyk/pvoptimizer/service/OptimizerImpl.java:793-797 | the indicator-to-start map holds exactly the variants' indicators, each giving its variant's start |
| Decode.FirstChosenFindsLowest | src/main/java/com/github/kacperpotapczyk/pvoptimizer/service/OptimizerImpl.java:793-797 | the ascending search returns the start of the lowest indicator column equal to 1 |
| Decode.FirstChosenSome | src/main/java/com/github/kacperpotapczyk/pvoptimizer/service/OptimizerImpl.java:793-797 | when some indicator column equals 1, the search returns the start of one equal to 1 below which no indicator equals 1 |
| Decode.MovableLowest | src/main/java/com/github/kacperpotapczyk/pvoptimizer/service/OptimizerImpl.java:779-805 | the variant with the lowest indicator column equal to 1 is the one decoded |
| Decode.MovableSomeChosen | src/main/java/com/github/kacperpotapczyk/pvoptimizer/service/OptimizerImpl.java:779-805 | when some indicator equals 1, a variant with the lowest such indicator exists and its start is decoded |
| Decode.MovableNoneChosen | src/main/java/com/github/kacperpotapczyk/pvoptimizer/service/OptimizerImpl.java:779-805 | when no indicator equals 1, the decoded start is -1 |
| Decode.FirstChosenNone | src/main/java/com/github/kacperpotapczyk/pvoptimizer/service/OptimizerImpl.java:793-797 | when no indicator equals 1, the search gives -1 |
| Decode.MovableDecoded | src/main/java/com/github/kacperpotapczyk/pvoptimizer/service/OptimizerImpl.java:779-805 | a movable result has the demand's id and name, and the start of the variant with the lowest indicator column among those equal to 1 (the single chosen variant when there is one), or -1 when no indicator equals 1 |
| Decode.Collect | src/main/java/com/github/kacperpotapczyk/pvoptimizer/service/OptimizerImpl.java:646-686 | collecting results stops at the first failure; without one there is a result per contract |
| Decode.CollectEach | src/main/java/com/github/kacperpotapczyk/pvoptimizer/service/OptimizerImpl.java:646-686 | without a failure, every collected result is its contract's outcome |
| Decode.CollectFailure | src/main/java/com/github/kacperpotapczyk/pvoptimizer/service/OptimizerImpl.java:646-686 | with a failure, the results before it are the earlier contracts' outcomes and the failure is the next contract's |
| Decode.CollectOf | src/main/java/com/github/kacperpotapczyk/pvoptimizer/service/OptimizerImpl.java:646-686 | the collected results are determined by those two facts |
| Decode.DecodeContracts | src/main/java/com/github/kacperpotapczyk/pvoptimizer/service/OptimizerImpl.java:646-686 | decoding the contracts yields at most one result per contract, and one per contract when nothing failed |
| Decode.DecodeContractsEach | src/main/java/com/github/kacperpotapczyk/pvoptimizer/service/OptimizerImpl.java:646-686 | without a failure, result `i` is contract `i`'s outcome |
| Decode.DecodeContractsFailure | src/main/java/com/github/kacperpotapczyk/pvoptimizer/service/OptimizerImpl.java:646-686 | with a failure, results are the outcomes before the first failing contract, whose exception is reported |
| Decode.DecodeContractsOf | src/main/java/com/github/kacperpotapczyk/pvoptimizer/service/OptimizerImpl.java:646-686 | those two facts determine the decoded contracts |
| Decode.StorageBlocksInSolution | src/main/java/com/github/kacperpotapczyk/pvoptimizer/service/OptimizerImpl.java:688-777 | every allocated storage column is in the solution map |
| Decode.StorageResults | src/main/java/com/github/kacperpotapczyk/pvoptimizer/service/OptimizerImpl.java:688-777 | one storage result per storage of the task |
| Decode.StorageResultOf | src/main/java/com/github/kacperpotapczyk/pvoptimizer/service/OptimizerImpl.java:688-777 | storage result `s` carries storage `s`'s id and name and, per interval, the solution's charge, discharge, energy and mode |
| Decode.MovableResults | src/main/java/com/github/kacperpotapczyk/pvoptimizer/service/OptimizerImpl.java:779-805 | one movable-demand result per demand of the task |
| Decode.LayoutIndicators | src/main/java/com/github/kacperpotapczyk/pvoptimizer/service/OptimizerImpl.java:149-187 | the variant indicators of a demand are distinct allocated columns |
| LpSolve.LpSolveSolver.NativeAccepts | src/main/java/com/github/kacperpotapczyk/pvoptimizer/solver/LpSolveSolver.java:309-334 | the native call accepts a set of columns iff all are valid columns `1..ncols`; the Java code itself checks only the upper side (line 319), so refusing a column below 1 is an assumption about lp_solve |
| LpSolve.LpSolveSolver.constructor | src/main/java/com/github/kacperpotapczyk/pvoptimizer/solver/LpSolveSolver.java:28-40 | a new solver has an empty model to be minimised, has not solved and is not freed |
| LpSolve.LpSolveSolver.AddVariables | src/main/java/com/github/kacperpotapczyk/pvoptimizer/solver/LpSolveSolver.java:43-59 | adds the continuous columns `AddColumns` specifies and returns the first new index |
| LpSolve.LpSolveSolver.AddBinaryVariables | src/main/java/com/github/kacperpotapczyk/pvoptimizer/solver/LpSolveSolver.java:62-78 | adds the binary columns `AddColumns` specifies and returns the first new index |
| LpSolve.LpSolveSolver.AddWeightedSumConstraint | src/main/java/com/github/kacperpotapczyk/pvoptimizer/solver/LpSolveSolver.java:309-334 | adds the row, or throws the weight-range or native exception and leaves the model unchanged |
| LpSolve.LpSolveSolver.AddEqWeightedSumConstraint | src/main/java/com/github/kacperpotapczyk/pvoptimizer/solver/LpSolveSolver.java:98-101 | an equality weighted-sum row |
| LpSolve.LpSolveSolver.AddLeqWeightedSumConstraint | src/main/java/com/github/kacperpotapczyk/pvoptimizer/solver/LpSolveSolver.java:125-128 | an at-most weighted-sum row |
| LpSolve.LpSolveSolver.AddGeqWeightedSumConstraint | src/main/java/com/github/kacperpotapczyk/pvoptimizer/solver/LpSolveSolver.java:152-155 | an at-least weighted-sum row |
| LpSolve.LpSolveSolver.AddEqSumConstraint | src/main/java/com/github/kacperpotapczyk/pvoptimizer/solver/LpSolveSolver.java:104-110 | an equality row with unit weights on the given columns |
| LpSolve.LpSolveSolver.AddLeqSumConstraint | src/main/java/com/github/kacperpotapczyk/pvoptimizer/solver/LpSolveSolver.java:131-137 | an at-most row with unit weights on the given columns |
| LpSolve.LpSolveSolver.AddGeqSumConstraint | src/main/java/com/github/kacperpotapczyk/pvoptimizer/solver/LpSolveSolver.java:158-164 | an at-least row with unit weights on the given list of columns |
| LpSolve.LpSolveSolver.AddImplication | src/main/java/com/github/kacperpotapczyk/pvoptimizer/solver/LpSolveSolver.java:167-174 | the row `x - bigM * b <= 0` |
| LpSolve.LpSolveSolver.AddSumImplication | src/main/java/com/github/kacperpotapczyk/pvoptimizer/solver/LpSolveSolver.java:177-184 | the row `sum(xs) - bigM * b <= 0` |
| LpSolve.LpSolveSolver.FixVariables | src/main/java/com/github/kacperpotapczyk/pvoptimizer/solver/LpSolveSolver.java:81-95 | one fixing row per entry in order; on a failure the rows added before it stay |
| LpSolve.LpSolveSolver.AddUpperBounds | src/main/java/com/github/kacperpotapczyk/pvoptimizer/solver/LpSolveSolver.java:113-122 | sets upper bounds; a failure keeps the bounds set before it |
| LpSolve.LpSolveSolver.AddLowerBounds | src/main/java/com/github/kacperpotapczyk/pvoptimizer/solver/LpSolveSolver.java:140-149 | sets lower bounds; a failure keeps the bounds set before it |
| LpSolve.LpSolveSolver.SetObjectiveFunction | src/main/java/com/github/kacperpotapczyk/pvoptimizer/solver/LpSolveSolver.java:187-205 | replaces the objective, or throws with the model unchanged |
| LpSolve.LpSolveSolver.SetObjectiveDirection | src/main/java/com/github/kacperpotapczyk/pvoptimizer/solver/LpSolveSolver.java:208-216 | sets only the direction |
| LpSolve.LpSolveSolver.GetObjectiveDirection | src/main/java/com/github/kacperpotapczyk/pvoptimizer/solver/LpSolveSolver.java:219-227 | MAX iff the model maximises |
| LpSolve.LpSolveSolver.SetRelativeGap | src/main/java/com/github/kacperpotapczyk/pvoptimizer/solver/LpSolveSolver.java:230-233 | sets only the gap |
| LpSolve.LpSolveSolver.SetTimeOut | src/main/java/com/github/kacperpotapczyk/pvoptimizer/solver/LpSolveSolver.java:236-239 | sets only the time-out |
| LpSolve.LpSolveSolver.Solve | src/main/java/com/github/kacperpotapczyk/pvoptimizer/solver/LpSolveSolver.java:242-258 | runs the engine on the model: a native exception becomes a solver exception with its message, otherwise the code's status is returned |
| LpSolve.LpSolveSolver.GetObjectiveValue | src/main/java/com/github/kacperpotapczyk/pvoptimizer/solver/LpSolveSolver.java:261-268 | the objective value of the last run |
| LpSolve.LpSolveSolver.GetSolution | src/main/java/com/github/kacperpotapczyk/pvoptimizer/solver/LpSolveSolver.java:271-285 | the values of columns `1..ncols` from the last run |
| LpSolve.LpSolveSolver.GetSolutionRelativeGap | src/main/java/com/github/kacperpotapczyk/pvoptimizer/solver/LpSolveSolver.java:288-290 | the configured gap |
| LpSolve.LpSolveSolver.GetSolutionElapsedTime | src/main/java/com/github/kacperpotapczyk/pvoptimizer/solver/LpSolveSolver.java:293-295 | the elapsed time of the last run |
| LpSolve.LpSolveSolver.Free | src/main/java/com/github/kacperpotapczyk/pvoptimizer/solver/LpSolveSolver.java:304-307 | marks the solver freed and changes nothing else |
| ModelBuilder.AssignContractsVariables | src/main/java/com/github/kacperpotapczyk/pvoptimizer/service/OptimizerImpl.java:111-127 | allocates exactly the contract blocks `AllocateContracts` specifies |
| ModelBuilder.AssignStoragesVariables | src/main/java/com/github/kacperpotapczyk/pvoptimizer/service/OptimizerImpl.java:129-147 | allocates exactly the storage blocks `AllocateStorages` specifies |
| ModelBuilder.AddStorageColumns | src/main/java/com/github/kacperpotapczyk/pvoptimizer/service/OptimizerImpl.java:129-147 | one storage's four blocks |
| ModelBuilder.AddVariantColumns | src/main/java/com/github/kacperpotapczyk/pvoptimizer/service/OptimizerImpl.java:149-187 | one variant's power block and indicator |
| ModelBuilder.AssignVariants | src/main/java/com/github/kacperpotapczyk/pvoptimizer/service/OptimizerImpl.java:149-187 | one demand's variants |
| ModelBuilder.AssignMovableDemandVariables | src/main/java/com/github/kacperpotapczyk/pvoptimizer/service/OptimizerImpl.java:149-187 | allocates exactly the variant blocks `AllocateMovables` specifies |
| ModelBuilder.AssignVariables | src/main/java/com/github/kacperpotapczyk/pvoptimizer/service/OptimizerImpl.java:111-187 | the three phases together give `Allocate`'s model and layout |
| ModelBuilder.PutContractWeights | src/main/java/com/github/kacperpotapczyk/pvoptimizer/service/OptimizerImpl.java:208-213 | the contract entries of an interval's balance row |
| ModelBuilder.PutStorageWeights | src/main/java/com/github/kacperpotapczyk/pvoptimizer/service/OptimizerImpl.java:216-228 | the charge or discharge entries added in order to the row |
| ModelBuilder.PutVariantWeights | src/main/java/com/github/kacperpotapczyk/pvoptimizer/service/OptimizerImpl.java:230-246 | one demand's variant entries added in order |
| ModelBuilder.PutMovableWeights | src/main/java/com/github/kacperpotapczyk/pvoptimizer/service/OptimizerImpl.java:230-246 | all movable entries added in order |
| ModelBuilder.BalanceWeightsAt | src/main/java/com/github/kacperpotapczyk/pvoptimizer/service/OptimizerImpl.java:205-246 | the whole balance row of an interval as `BalanceWeights` specifies |
| ModelBuilder.SetUpPowerBalance | src/main/java/com/github/kacperpotapczyk/pvoptimizer/service/OptimizerImpl.java:189-249 | adds the specified balance rows, stopping at the first exception |
| ModelBuilder.SetUpContractPowerConstraints | src/main/java/com/github/kacperpotapczyk/pvoptimizer/service/OptimizerImpl.java:268-293 | adds the specified power bounds of one contract |
| ModelBuilder.SetUpEnergySums | src/main/java/com/github/kacperpotapczyk/pvoptimizer/service/OptimizerImpl.java:295-331 | adds the specified energy-sum rows |
| ModelBuilder.SetUpContractEnergyConstraints | src/main/java/com/github/kacperpotapczyk/pvoptimizer/service/OptimizerImpl.java:295-331 | adds one contract's minimal and maximal energy rows |
| ModelBuilder.SetUpContractsConstraints | src/main/java/com/github/kacperpotapczyk/pvoptimizer/service/OptimizerImpl.java:251-266 | adds every contract's groups in order |
| ModelCalls.EnergyBalanceCallAt | src/main/java/com/github/kacperpotapczyk/pvoptimizer/service/OptimizerImpl.java:358-385 | energy-balance row `t` is the first-interval row at 0 and the recurrence row after it |
| ModelBuilder.SetUpStorageEnergyBalance | src/main/java/com/github/kacperpotapczyk/pvoptimizer/service/OptimizerImpl.java:358-385 | adds the specified energy-balance rows, throwing on an empty horizon |
| ModelBuilder.AddModeRows | src/main/java/com/github/kacperpotapczyk/pvoptimizer/service/OptimizerImpl.java:387-412 | adds the two mode rows of one interval |
| ModelBuilder.SetUpStorageModeIndicators | src/main/java/com/github/kacperpotapczyk/pvoptimizer/service/OptimizerImpl.java:387-412 | adds the mode rows of every interval |
| ModelBuilder.SetUpStorageBounds | src/main/java/com/github/kacperpotapczyk/pvoptimizer/service/OptimizerImpl.java:414-529 | adds the specified lower and upper bounds of one bound block |
| ModelBuilder.SetUpStorageForbiddenStates | src/main/java/com/github/kacperpotapczyk/pvoptimizer/service/OptimizerImpl.java:531-553 | fixes the charge and discharge columns of forbidden intervals to 0 |
| ModelBuilder.SetUpStorageRows | src/main/java/com/github/kacperpotapczyk/pvoptimizer/service/OptimizerImpl.java:358-412 | the energy-balance rows, then the mode rows |
| ModelBuilder.SetUpStorageAllBounds | src/main/java/com/github/kacperpotapczyk/pvoptimizer/service/OptimizerImpl.java:414-529 | the charge, discharge and energy bounds |
| ModelBuilder.SetUpStorageConstraints | src/main/java/com/github/kacperpotapczyk/pvoptimizer/service/OptimizerImpl.java:333-356 | every row and bound of one storage in the source's order |
| ModelBuilder.SetUpStoragesConstraints | src/main/java/com/github/kacperpotapczyk/pvoptimizer/service/OptimizerImpl.java:333-356 | every storage's group in order |
| ModelBuilder.SetUpVariantLinks | src/main/java/com/github/kacperpotapczyk/pvoptimizer/service/OptimizerImpl.java:565-576 | the link rows of one variant |
| ModelBuilder.SetUpMovableDemand | src/main/java/com/github/kacperpotapczyk/pvoptimizer/service/OptimizerImpl.java:555-586 | one demand's link rows and its indicator-sum row |
| ModelBuilder.SetUpMovableDemandConstraints | src/main/java/com/github/kacperpotapczyk/pvoptimizer/service/OptimizerImpl.java:555-586 | every demand's group in order |
| ModelBuilder.PutContractCosts | src/main/java/com/github/kacperpotapczyk/pvoptimizer/service/OptimizerImpl.java:597-620 | one contract's objective entries added in order |
| ModelBuilder.CostCoefficientsOf | src/main/java/com/github/kacperpotapczyk/pvoptimizer/service/OptimizerImpl.java:588-622 | the objective coefficients as `ObjectiveCoefficients` specifies |
| ModelBuilder.SetUpObjectiveFunction | src/main/java/com/github/kacperpotapczyk/pvoptimizer/service/OptimizerImpl.java:588-622 | sets that objective |
| ModelBuilder.SetUpModel | src/main/java/com/github/kacperpotapczyk/pvoptimizer/service/OptimizerImpl.java:73-80 | the whole model: balance, contracts, storages, movable demands, objective, stopping at the first exception |
| Optimizer.BuiltAllocated | src/main/java/com/github/kacperpotapczyk/pvoptimizer/service/OptimizerImpl.java:69-80 | the layout's columns are exactly the columns of the built model |
| Optimizer.NotFound | src/main/java/com/github/kacperpotapczyk/pvoptimizer/service/OptimizerImpl.java:102-106 | the catch clause sets SOLUTION_NOT_FOUND and the message and keeps every other field |
| Optimizer.FoundResult | src/main/java/com/github/kacperpotapczyk/pvoptimizer/service/OptimizerImpl.java:84-95 | the found result keeps the id and is SOLUTION_FOUND iff every contract decodes |
| Optimizer.SolvedSettings | src/main/java/com/github/kacperpotapczyk/pvoptimizer/service/OptimizerImpl.java:57-58 | the model is solved with `min(task timeout, max allowed)` seconds and gap `max(numerical zero, task gap)`, minimising |
| Optimizer.SolvedIdentifies | src/main/java/com/github/kacperpotapczyk/pvoptimizer/service/OptimizerImpl.java:49-109 | every result of `solve` has the task's id, a status and a message; the solver is freed only when the model was built and the engine finished; a found result has an empty message |
| Optimizer.SolvedFound | src/main/java/com/github/kacperpotapczyk/pvoptimizer/service/OptimizerImpl.java:84-100 | SOLUTION_FOUND only when the model was built, the engine returned OPTIMAL or SUBOPTIMAL and the solver was freed |
| Optimizer.SolvedFinished | src/main/java/com/github/kacperpotapczyk/pvoptimizer/service/OptimizerImpl.java:84-100 | when the engine returned OPTIMAL or SUBOPTIMAL the result is the decoded solution, and the solver is freed iff decoding succeeded |
| Optimizer.SolvedNotFound | src/main/java/com/github/kacperpotapczyk/pvoptimizer/service/OptimizerImpl.java:49-109 | SOLUTION_NOT_FOUND arises exactly from a build exception, an engine exception, another status, or a contract decoding exception, each with its message |
| Optimizer.FoundContents | src/main/java/com/github/kacperpotapczyk/pvoptimizer/service/OptimizerImpl.java:624-644 | a found result carries the gap, elapsed time, objective value, storage results and movable-demand results |
| Optimizer.FoundContracts | src/main/java/com/github/kacperpotapczyk/pvoptimizer/service/OptimizerImpl.java:646-686 | a found result's contract results are each contract's decoded outcome, in order |
| Optimizer.FoundStorage | src/main/java/com/github/kacperpotapczyk/pvoptimizer/service/OptimizerImpl.java:688-777 | a found result's storage result `s` holds the solution's per-interval charge, discharge, energy and mode |
| Optimizer.FoundMovableDemand | src/main/java/com/github/kacperpotapczyk/pvoptimizer/service/OptimizerImpl.java:779-805 | a found result's movable result `d` holds the start of the variant with the lowest indicator column equal to 1 (the single one when only one is), or -1 when none is |
| Optimizer.FoundDecodeFailure | src/main/java/com/github/kacperpotapczyk/pvoptimizer/service/OptimizerImpl.java:102-106 | when a contract fails to decode, the result keeps the found scalars and the earlier contract results, has no storage or movable result, and carries the failing contract's message |
| Optimizer.SolvedOnBuildFailure | src/main/java/com/github/kacperpotapczyk/pvoptimizer/service/OptimizerImpl.java:102-106 | an exception while building the model gives SOLUTION_NOT_FOUND with its message |
| Optimizer.SolvedOnThrow | src/main/java/com/github/kacperpotapczyk/pvoptimizer/service/OptimizerImpl.java:102-106 | an exception from the native solve gives SOLUTION_NOT_FOUND with its message |
| Optimizer.SolvedOnOtherStatus | src/main/java/com/github/kacperpotapczyk/pvoptimizer/service/OptimizerImpl.java:96-100 | any status other than OPTIMAL or SUBOPTIMAL gives SOLUTION_NOT_FOUND with the fixed message, and the solver is freed |
| Optimizer.SolvedOnSolution | src/main/java/com/github/kacperpotapczyk/pvoptimizer/service/OptimizerImpl.java:84-95 | OPTIMAL or SUBOPTIMAL gives the decoded result |
| Optimizer.OptimizerImpl.constructor | src/main/java/com/github/kacperpotapczyk/pvoptimizer/service/OptimizerImpl.java:42-46 | keeps the maximal allowed time-out and the numerical zero |
| Optimizer.OptimizerImpl.Solve | src/main/java/com/github/kacperpotapczyk/pvoptimizer/service/OptimizerImpl.java:49-109 | `solve(task)` returns the result `SolvedAs` specifies |
| Optimizer.OptimizerImpl.BuildModel | src/main/java/com/github/kacperpotapczyk/pvoptimizer/service/OptimizerImpl.java:55-80 | a fresh solver holding the configured model with every specified set-up call performed |
| Optimizer.OptimizerImpl.GetResult | src/main/java/com/github/kacperpotapczyk/pvoptimizer/service/OptimizerImpl.java:624-644 | `getResult` gives the found result, or throws the contract decoding message that the catch clause turns into the not-found result |
| Optimizer.OptimizerImpl.GetContractsResults | src/main/java/com/github/kacperpotapczyk/pvoptimizer/service/OptimizerImpl.java:646-686 | adds the decoded contract results before the first exception |
| Optimizer.OptimizerImpl.GetStoragesResults | src/main/java/com/github/kacperpotapczyk/pvoptimizer/service/OptimizerImpl.java:688-777 | appends the specified storage results |
| Optimizer.OptimizerImpl.GetMovableDemandResults | src/main/java/com/github/kacperpotapczyk/pvoptimizer/service/OptimizerImpl.java:779-805 | appends the specified movable-demand results |
| ResultDtos.OptimizationStatusMapper | src/main/java/com/github/kacperpotapczyk/pvoptimizer/service/mapper/ResultToResultDto.java:92-100 | SOLUTION_FOUND maps to found, any other status or none to not found |
| ResultDtos.StorageModeMapper | src/main/java/com/github/kacperpotapczyk/pvoptimizer/service/mapper/ResultToResultDto.java:102-114 | CHARGING and DISCHARGING keep their names, DISABLED maps to DISABLED |
| ResultDtos.StorageModeListMapper | src/main/java/com/github/kacperpotapczyk/pvoptimizer/service/mapper/ResultToResultDto.java:102-114 | one message mode per mode, in order |
| ResultDtos.ContractResultDtoOf | src/main/java/com/github/kacperpotapczyk/pvoptimizer/service/mapper/ResultToResultDto.java:46-59 | a contract message carries the result's id, name and value lists |
| ResultDtos.MapContractResults | src/main/java/com/github/kacperpotapczyk/pvoptimizer/service/mapper/ResultToResultDto.java:46-59 | one contract message per result, in order, with the value lists |
| ResultDtos.MapStorageResults | src/main/java/com/github/kacperpotapczyk/pvoptimizer/service/mapper/ResultToResultDto.java:61-76 | one storage message per result, in order, with the value lists and translated modes |
| ResultDtos.MapMovableDemandResults | src/main/java/com/github/kacperpotapczyk/pvoptimizer/service/mapper/ResultToResultDto.java:78-90 | one movable-demand message per result, in order |
| ResultDtos.Map | src/main/java/com/github/kacperpotapczyk/pvoptimizer/service/mapper/ResultToResultDto.java:28-44 | the message has the result's scalars, translated status and message text; the records follow the results in order: a contract or storage record carries the result's id, name and value lists, with the storage modes translated, and a movable-demand record its id, name and start interval |
| ResultDtos.SolvedMapsFound | src/main/java/com/github/kacperpotapczyk/pvoptimizer/service/mapper/ResultToResultDto.java:28-44 | every result of `solve` can be mapped; its message says found only for a built model solved OPTIMAL or SUBOPTIMAL, with an empty error text |

## Left out

- `printModel` is left out because it only writes the model to the console.
- The lp_solve library itself is not modelled: simplex, branch and bound, presolve and
  verbosity. The engine is the parameter `NativeEngine`, whose `rejectText` supplies the
  message of a refused call.
- LpSolve.LpSolveSolver.NativeAccepts: that `add_constraintex`, `set_upbo`, `set_lowbo`
  and `set_obj_fnex` refuse a column outside `1..ncols` is an assumption about lp_solve.
  The Java code checks only the upper side (`key > maxIndex`, LpSolveSolver.java line 319).
- The `SolverException` paths of `getObjectiveValue`, `getSolutionElapsedTime` and
  `getSolution` (LpSolveSolver.java lines 261-285) are not modelled: after a finished solve
  they are taken to return the run's values. This covers the debug logging in `solve`
  (OptimizerImpl.java lines 88-94), which calls them before `getResult`.
- Java `double` arithmetic is modelled as exact reals. No NaN, infinities or rounding.
  `Math.max` and `Math.min` are exact.
- Java `int` and `long` overflow is modelled only in `hashCode`. Column indexes,
  interval arithmetic and the time-out are unbounded integers.
- `HashMap` and `HashSet` iteration order is unspecified in Java. The task's sets, the
  forbidden-interval sets and the start-interval sets are sequences in an arbitrary
  fixed order, with unique keys.
- LpSolveSolver.AddWeightedSumConstraint: when several weights are out of range, Java
  reports the first in hash order. The model lets the message name any offending key.
- After a failed call the native model holds whatever lp_solve left in it. The model keeps
  the state from before the failed call, plus the rows or bounds set before it in the
  same call.
- `null` is modelled as `Option`. `NullPointerException`s from null collections inside
  the core are not modelled, apart from the `@NonNull` task id.
- Not modelled because they are outside the optimisation core: `TaskDtoToTask`, the Kafka
  consumer and producer, logging, Spring configuration, the Avro message classes and the
  `Mapper` interface.
- The duplicate-key exceptions of the `Collectors.toMap` calls in `OptimizerImpl` (the
  balance, bound and energy weights and the indicator map of `getMovableDemandResults`)
  are not modelled: their keys are distinct intervals or distinct columns. The solver's
  list-taking methods do model theirs: `LpSolve.LpSolveSolver.AddGeqSumConstraint` and
  `AddSumImplication` throw `DuplicateUnitKey` on a repeated column (`SolverModel.FirstRepeat`).
- Stream laziness and the evaluation order inside one stream expression are not modelled.
- Optimizer.OptimizerImpl.Solve: whether the solver was freed is a ghost out-parameter.
  `free()` has no visible effect on the Result.
- `Solver.java` is a Java interface. Here it is stated as the pure `Call`/`Apply` model
  that `LpSolveSolver` implements.
- ResultDtos.Map: requires a non-null error message, because the message schema's field
  is non-null. The Java mapper would throw on a null message.
  `ResultDtos.SolvedMapsFound` proves every result of `solve` has one.
- The ResultDto and Result builders are returned values, not builder objects.
- The optimality of the schedules found is not modelled. Only the meaning of the rows
  and of the objective is proved.
- ModelCalls row-count functions (`BalanceCalls`, `ContractCallGroups`, `EnergyCalls`,
  `ModeCallGroups`, `StorageCallGroups`, `LinkCalls`, `LinkCallGroups`,
  `MovableCallGroups`, `ObjectiveEntries`, `ObjectiveEntryGroups` and the four
  `*BalanceEntries`): their own contracts state only the counts. What the rows mean is
  proved separately in `Balance`, `RowMeaning` and `Objective` (for the contract rows,
  see the next two lines).
- ModelCalls.ContractCallGroups: its contract states only one group per contract. The
  meaning of a group's power bounds is `RowMeaning.PowerBoundColumn`; that of its energy
  rows is `RowMeaning.EnergySumColumn` and `RowMeaning.EnergyCallsMeaning`.
- ModelCalls.EnergyCalls: its contract states only one row per constraint. Row i's meaning
  is `RowMeaning.EnergyCallsMeaning`.
- Builders' collection setters (`Storages.StorageBuilder`, `Contracts.ContractBuilder`):
  Java keeps the caller's map, set or list object, so a later single-entry call also
  changes the caller's collection. The model copies values and does not capture that
  aliasing.
