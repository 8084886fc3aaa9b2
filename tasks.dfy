/**
 * The optimization task (model/Task): interval durations, production and demand profiles,
 * and the contracts, storages and movable demands to schedule. Lombok's `@Singular` sets
 * are sequences holding at most one entity per id, in insertion order.
 */
module Tasks {
  import opened Wrappers
  import opened Exceptions
  import opened Profiles
  import opened Contracts
  import opened Storages
  import opened MovableDemands

  /** Production and Demand (FixedSourceSink): a profile of power values. */
  datatype SourceSink = SourceSink(id: int, name: string, profile: Profile<real>)

  datatype Task = Task(
    id: int,
    timeoutSeconds: int,
    relativeGap: real,
    intervals: Profile<real>,
    production: SourceSink,
    demand: SourceSink,
    contracts: seq<Contract>,
    storages: seq<Storage>,
    movableDemands: seq<MovableDemand>)
  {
    /** `optimizationHorizonLength`: one interval per duration value. */
    function OptimizationHorizonLength(): (h: nat)
      ensures h == |intervals.values|
    {
      intervals.Length()
    }
  }

  /** Keys are pairwise distinct. */
  predicate UniqueKeys<T>(xs: seq<T>, key: T -> int) {
    forall i, j :: 0 <= i < j < |xs| ==> key(xs[i]) != key(xs[j])
  }

  /** What a task built through its builder satisfies: id-based sets, and sets inside the entities. */
  predicate WellFormed(task: Task) {
    UniqueKeys(task.contracts, (c: Contract) => c.id)
    && UniqueKeys(task.storages, (s: Storage) => s.id)
    && UniqueKeys(task.movableDemands, (d: MovableDemand) => d.id)
    && (forall i :: 0 <= i < |task.movableDemands| ==> DistinctStarts(task.movableDemands[i]))
    && (forall i :: 0 <= i < |task.storages| ==>
          (task.storages[i].forbiddenChargeIntervals.Some? ==> NoDuplicates(task.storages[i].forbiddenChargeIntervals.value))
          && (task.storages[i].forbiddenDischargeIntervals.Some? ==> NoDuplicates(task.storages[i].forbiddenDischargeIntervals.value)))
  }

  function Keys<T>(xs: seq<T>, key: T -> int): set<int> {
    set i | 0 <= i < |xs| :: key(xs[i])
  }

  /**
   * Adding the builder's list to a `LinkedHashSet` whose equality is the id: an element is
   * kept when no earlier element has its id, so one element per id survives, in the order
   * of first appearance.
   */
  function DistinctById<T(==)>(xs: seq<T>, key: T -> int): (r: seq<T>)
    ensures UniqueKeys(r, key)
    ensures forall i :: 0 <= i < |r| ==> r[i] in xs
    ensures Keys(r, key) == Keys(xs, key)
    decreases |xs|
  {
    if xs == [] then []
    else
      var init := DistinctById(xs[..|xs| - 1], key);
      var last := xs[|xs| - 1];
      KeysSnoc(xs[..|xs| - 1], last, key);
      if key(last) in Keys(init, key) then init
      else
        KeysSnoc(init, last, key);
        init + [last]
  }

  lemma KeysSnoc<T>(xs: seq<T>, x: T, key: T -> int)
    ensures Keys(xs + [x], key) == Keys(xs, key) + {key(x)}
  {
    var ys := xs + [x];
    forall k | k in Keys(ys, key) ensures k in Keys(xs, key) + {key(x)} {
      var i :| 0 <= i < |ys| && key(ys[i]) == k;
      if i < |xs| { assert ys[i] == xs[i]; }
    }
    forall k | k in Keys(xs, key) ensures k in Keys(ys, key) {
      var i :| 0 <= i < |xs| && key(xs[i]) == k;
      assert ys[i] == xs[i];
    }
    assert key(ys[|xs|]) == key(x);
  }

  /**
   * `Task.builder()...build()`: the id is required; timeout and gap default to 0 and 0.0;
   * duplicate ids among the added entities collapse onto the first one added.
   */
  function BuildTask(
    id: Option<int>, timeoutSeconds: Option<int>, relativeGap: Option<real>,
    intervals: Profile<real>, production: SourceSink, demand: SourceSink,
    contracts: seq<Contract>, storages: seq<Storage>, movableDemands: seq<MovableDemand>): (r: Result<Task, Exception>)
    ensures r.Failure? <==> id.None?
    ensures r.Failure? ==> r.error == Exception(NullPointer, "id is marked non-null but is null")
    ensures r.Success? ==> r.value.id == id.value
                           && r.value.timeoutSeconds == timeoutSeconds.GetOr(0)
                           && r.value.relativeGap == relativeGap.GetOr(0.0)
                           && r.value.OptimizationHorizonLength() == intervals.Length()
    ensures r.Success? ==> UniqueKeys(r.value.contracts, (c: Contract) => c.id)
                           && UniqueKeys(r.value.storages, (s: Storage) => s.id)
                           && UniqueKeys(r.value.movableDemands, (d: MovableDemand) => d.id)
  {
    if id.None? then
      Failure(Exception(NullPointer, "id is marked non-null but is null"))
    else
      Success(Task(id.value, timeoutSeconds.GetOr(0), relativeGap.GetOr(0.0), intervals, production, demand,
                   DistinctById(contracts, (c: Contract) => c.id),
                   DistinctById(storages, (s: Storage) => s.id),
                   DistinctById(movableDemands, (d: MovableDemand) => d.id)))
  }

  /** Adding a contract whose id is already present leaves the task's contracts unchanged. */
  lemma {:induction false} RepeatedContractIdIgnored(contracts: seq<Contract>, c: Contract)
    requires exists j :: 0 <= j < |contracts| && contracts[j].id == c.id
    ensures DistinctById(contracts + [c], (x: Contract) => x.id) == DistinctById(contracts, (x: Contract) => x.id)
  {
    var key := (x: Contract) => x.id;
    var xs := contracts + [c];
    assert xs[..|xs| - 1] == contracts;
    var j :| 0 <= j < |contracts| && contracts[j].id == c.id;
    assert key(c) in Keys(contracts, key);
  }
}
