/**
 * Column allocation of service/OptimizerImpl (`assignContractsVariables`,
 * `assignStoragesVariables`, `assignMovableDemandVariables`): which solver columns hold
 * which entity's variables. The index records are those of service/index; the HashMaps
 * from entity id to record are sequences aligned with the task's entity sequences.
 */
module Layouts {
  import opened Wrappers
  import opened Seqs
  import opened SolverModel
  import opened Contracts
  import opened Storages
  import opened MovableDemands
  import opened Tasks

  /** ContractVariablesStartIndexes: the first power column and the number of power columns. */
  datatype ContractIndexes = ContractIndexes(power: int, length: int)

  /** StorageVariablesStartIndexes: the first column of each of the four per-interval blocks. */
  datatype StorageIndexes = StorageIndexes(charge: int, discharge: int, chargeIndicator: int, energy: int)

  /** MovableDemandVariablesStartIndexes: one start variant of a movable demand. */
  datatype VariantIndexes = VariantIndexes(startInterval: int, variantIndicator: int, power: int, length: int)

  /** All index records: per contract, per storage, and per movable demand its variants. */
  datatype Layout = Layout(contracts: seq<ContractIndexes>, storages: seq<StorageIndexes>, variants: seq<seq<VariantIndexes>>)

  // ---------------------------------------------------------------------------------------
  // Spans of columns

  /** The columns [first, first + width). */
  datatype Span = Span(first: int, width: nat)

  function End(s: Span): int {
    s.first + s.width
  }

  /** The spans follow each other without gaps, from lo up to hi. */
  predicate Contiguous(spans: seq<Span>, lo: int, hi: int)
    decreases |spans|
  {
    if spans == [] then lo == hi
    else Contiguous(spans[..|spans| - 1], lo, spans[|spans| - 1].first) && End(spans[|spans| - 1]) == hi
  }

  /** Contiguous spans lie inside [lo, hi) and are pairwise disjoint, each after all earlier ones. */
  lemma {:induction false} ContiguousOrdered(spans: seq<Span>, lo: int, hi: int)
    requires Contiguous(spans, lo, hi)
    ensures lo <= hi
    ensures forall a :: 0 <= a < |spans| ==> lo <= spans[a].first && End(spans[a]) <= hi
    ensures forall a, b :: 0 <= a < b < |spans| ==> End(spans[a]) <= spans[b].first
    decreases |spans|
  {
    if spans != [] {
      var init := spans[..|spans| - 1];
      ContiguousOrdered(init, lo, spans[|spans| - 1].first);
      assert forall a :: 0 <= a < |init| ==> init[a] == spans[a];
    }
  }

  lemma ContiguousSnoc(spans: seq<Span>, lo: int, s: Span)
    requires Contiguous(spans, lo, s.first)
    ensures Contiguous(spans + [s], lo, End(s))
  {
    assert (spans + [s])[..|spans|] == spans;
  }

  lemma {:induction false} ContiguousAppend(a: seq<Span>, b: seq<Span>, lo: int, mid: int, hi: int)
    requires Contiguous(a, lo, mid) && Contiguous(b, mid, hi)
    ensures Contiguous(a + b, lo, hi)
    decreases |b|
  {
    if b == [] {
      assert a + b == a;
    } else {
      var init := b[..|b| - 1];
      ContiguousAppend(a, init, lo, mid, b[|b| - 1].first);
      assert (a + b)[..|a + b| - 1] == a + init;
    }
  }

  // ---------------------------------------------------------------------------------------
  // Block lengths

  /** A contract's power columns: its length, cut at the end of the horizon (may be negative). */
  function ContractColumns(c: Contract, horizon: int): int {
    Wrappers.Min(c.ContractLength(), horizon - c.StartInterval())
  }

  /** A variant's power columns: the profile length, cut at the end of the horizon (may be negative). */
  function VariantColumns(profileLength: int, horizon: int, startInterval: int): int {
    Wrappers.Min(profileLength, horizon - startInterval)
  }

  function ContractSpans(idx: seq<ContractIndexes>): (spans: seq<Span>)
    ensures |spans| == |idx|
  {
    seq(|idx|, i requires 0 <= i < |idx| => Span(idx[i].power, Width(idx[i].length)))
  }

  /** A storage owns four blocks of `horizon` columns: charge, discharge, charge indicator, energy. */
  predicate StorageShaped(s: StorageIndexes, horizon: nat) {
    s.discharge == s.charge + horizon
    && s.chargeIndicator == s.charge + 2 * horizon
    && s.energy == s.charge + 3 * horizon
  }

  function StorageSpans(idx: seq<StorageIndexes>, horizon: nat): (spans: seq<Span>)
    ensures |spans| == |idx|
  {
    seq(|idx|, i requires 0 <= i < |idx| => Span(idx[i].charge, 4 * horizon))
  }

  /** A variant owns its power block followed by its indicator column. */
  predicate VariantShaped(v: VariantIndexes) {
    v.variantIndicator == v.power + Width(v.length)
  }

  function VariantSpans(vs: seq<VariantIndexes>): (spans: seq<Span>)
    ensures |spans| == |vs|
  {
    seq(|vs|, j requires 0 <= j < |vs| => Span(vs[j].power, Width(vs[j].length) + 1))
  }

  /** The variants' spans of all movable demands, demand after demand. */
  function MovableSpans(vss: seq<seq<VariantIndexes>>): seq<Span>
    decreases |vss|
  {
    if vss == [] then [] else MovableSpans(vss[..|vss| - 1]) + VariantSpans(vss[|vss| - 1])
  }

  lemma {:induction false} MovableSpansPrefix(vss: seq<seq<VariantIndexes>>, d: nat)
    requires d <= |vss|
    ensures MovableSpans(vss[..d]) <= MovableSpans(vss)
    decreases |vss| - d
  {
    if d == |vss| {
      assert vss[..d] == vss;
    } else {
      assert vss[..d + 1][..d] == vss[..d];
      MovableSpansPrefix(vss, d + 1);
    }
  }

  /** Where variant j of demand d sits among all variants' spans. */
  function VariantPosition(vss: seq<seq<VariantIndexes>>, d: nat, j: nat): int
    requires d <= |vss|
  {
    |MovableSpans(vss[..d])| + j
  }

  lemma MovableSpansIndex(vss: seq<seq<VariantIndexes>>, d: nat, j: nat)
    requires d < |vss| && j < |vss[d]|
    ensures VariantPosition(vss, d, j) < |MovableSpans(vss[..d + 1])| <= |MovableSpans(vss)|
    ensures MovableSpans(vss)[VariantPosition(vss, d, j)] == VariantSpans(vss[d])[j]
  {
    assert vss[..d + 1][..d] == vss[..d];
    MovableSpansPrefix(vss, d + 1);
  }

  /** A demand's variants come after all variants of earlier demands. */
  lemma {:induction false} VariantPositionMonotone(vss: seq<seq<VariantIndexes>>, d: nat, e: nat)
    requires d <= e <= |vss|
    ensures |MovableSpans(vss[..d])| <= |MovableSpans(vss[..e])|
    decreases e - d
  {
    if d < e {
      assert vss[..d + 1][..d] == vss[..d];
      VariantPositionMonotone(vss, d + 1, e);
    }
  }

  // ---------------------------------------------------------------------------------------
  // Allocation

  /** What allocating the contracts cs promises: one power block per contract, in order, from
      the first free column on; nothing but the column count changes. */
  predicate ContractsAllocated(m: Model, cs: seq<Contract>, horizon: int, r: (Model, seq<ContractIndexes>)) {
    r.0 == m.(ncols := r.0.ncols)
    && |r.1| == |cs|
    && (forall i :: 0 <= i < |cs| ==> r.1[i].length == ContractColumns(cs[i], horizon))
    && Contiguous(ContractSpans(r.1), m.ncols + 1, r.0.ncols + 1)
  }

  /** Allocating one more contract after the first ones. */
  lemma AllocateContractsSnoc(m: Model, cs: seq<Contract>, horizon: int, r1: (Model, seq<ContractIndexes>),
                              r2: (Model, int))
    requires cs != [] && ContractsAllocated(m, cs[..|cs| - 1], horizon, r1)
    requires r2 == AddColumns(r1.0, ContractColumns(cs[|cs| - 1], horizon), false)
    ensures ContractsAllocated(m, cs, horizon, (r2.0, r1.1 + [ContractIndexes(r2.1, ContractColumns(cs[|cs| - 1], horizon))]))
  {
    var idx, length := r1.1, ContractColumns(cs[|cs| - 1], horizon);
    var x := ContractIndexes(r2.1, length);
    assert forall i :: 0 <= i < |idx| ==> (idx + [x])[i] == idx[i] && cs[..|cs| - 1][i] == cs[i];
    assert ContractSpans(idx + [x]) == ContractSpans(idx) + [Span(r2.1, Width(length))];
    ContiguousSnoc(ContractSpans(idx), m.ncols + 1, Span(r2.1, Width(length)));
  }

  /** `assignContractsVariables`: one `addVariables(length)` per contract. */
  function AllocateContracts(m: Model, cs: seq<Contract>, horizon: int): (r: (Model, seq<ContractIndexes>))
    ensures ContractsAllocated(m, cs, horizon, r)
    decreases |cs|
  {
    if cs == [] then (m, [])
    else
      var r1 := AllocateContracts(m, cs[..|cs| - 1], horizon);
      var r2 := AddColumns(r1.0, ContractColumns(cs[|cs| - 1], horizon), false);
      AllocateContractsSnoc(m, cs, horizon, r1, r2);
      (r2.0, r1.1 + [ContractIndexes(r2.1, ContractColumns(cs[|cs| - 1], horizon))])
  }

  function StorageIndicatorColumns(idx: seq<StorageIndexes>, horizon: nat): set<int>
    decreases |idx|
  {
    if idx == [] then {}
    else StorageIndicatorColumns(idx[..|idx| - 1], horizon) + Block(idx[|idx| - 1].chargeIndicator, horizon)
  }

  /** What allocating the storages ss promises: four blocks of horizon columns per storage, the
      third of them binary, in order from the first free column on. */
  predicate StoragesAllocated(m: Model, ss: seq<Storage>, horizon: nat, r: (Model, seq<StorageIndexes>)) {
    r.0 == m.(ncols := r.0.ncols, binaries := r.0.binaries)
    && r.0.binaries == m.binaries + StorageIndicatorColumns(r.1, horizon)
    && |r.1| == |ss|
    && (forall i :: 0 <= i < |ss| ==> StorageShaped(r.1[i], horizon))
    && Contiguous(StorageSpans(r.1, horizon), m.ncols + 1, r.0.ncols + 1)
  }

  /** The four blocks of one storage, taken from the first free column of m. */
  function AddStorage(m: Model, horizon: nat): (r: (Model, StorageIndexes))
    ensures r.0 == m.(ncols := r.0.ncols, binaries := r.0.binaries)
    ensures r.0.binaries == m.binaries + Block(r.1.chargeIndicator, horizon)
    ensures StorageShaped(r.1, horizon) && r.1.charge == m.ncols + 1 && r.0.ncols + 1 == End(Span(r.1.charge, 4 * horizon))
  {
    var r2 := AddColumns(m, horizon, false);
    var r3 := AddColumns(r2.0, horizon, false);
    var r4 := AddColumns(r3.0, horizon, true);
    var r5 := AddColumns(r4.0, horizon, false);
    (r5.0, StorageIndexes(r2.1, r3.1, r4.1, r5.1))
  }

  /** Allocating one more storage after the first ones. */
  lemma AllocateStoragesSnoc(m: Model, ss: seq<Storage>, horizon: nat, r1: (Model, seq<StorageIndexes>),
                             r2: (Model, StorageIndexes))
    requires ss != [] && StoragesAllocated(m, ss[..|ss| - 1], horizon, r1)
    requires r2 == AddStorage(r1.0, horizon)
    ensures StoragesAllocated(m, ss, horizon, (r2.0, r1.1 + [r2.1]))
  {
    var idx, x := r1.1, r2.1;
    assert (idx + [x])[..|idx|] == idx;
    assert forall i :: 0 <= i < |idx| ==> (idx + [x])[i] == idx[i];
    assert StorageSpans(idx + [x], horizon) == StorageSpans(idx, horizon) + [Span(x.charge, 4 * horizon)];
    ContiguousSnoc(StorageSpans(idx, horizon), m.ncols + 1, Span(x.charge, 4 * horizon));
  }

  /** `assignStoragesVariables`: charge, discharge, binary indicator and energy blocks per storage. */
  function AllocateStorages(m: Model, ss: seq<Storage>, horizon: nat): (r: (Model, seq<StorageIndexes>))
    ensures StoragesAllocated(m, ss, horizon, r)
    decreases |ss|
  {
    if ss == [] then (m, [])
    else
      var r1 := AllocateStorages(m, ss[..|ss| - 1], horizon);
      var r2 := AddStorage(r1.0, horizon);
      AllocateStoragesSnoc(m, ss, horizon, r1, r2);
      (r2.0, r1.1 + [r2.1])
  }

  function VariantIndicators(vs: seq<VariantIndexes>): set<int> {
    set j | 0 <= j < |vs| :: vs[j].variantIndicator
  }

  /** One variant starting at s: its power columns, then its binary indicator column. */
  function AddVariant(m: Model, s: int, profileLength: nat, horizon: int): (r: (Model, VariantIndexes))
    ensures r.0 == m.(ncols := r.0.ncols, binaries := r.0.binaries)
    ensures r.0.binaries == m.binaries + {r.1.variantIndicator}
    ensures r.1.startInterval == s && r.1.length == VariantColumns(profileLength, horizon, s) && VariantShaped(r.1)
    ensures r.1.power == m.ncols + 1 && r.0.ncols + 1 == End(Span(r.1.power, Width(r.1.length) + 1))
  {
    var length := VariantColumns(profileLength, horizon, s);
    var r2 := AddColumns(m, length, false);
    var r3 := AddColumns(r2.0, 1, true);
    assert Block(r2.0.ncols + 1, 1) == {r3.1};
    (r3.0, VariantIndexes(s, r3.1, r2.1, length))
  }

  /** What allocating the variants for the start intervals promises: one variant per start, in
      order, each a power block followed by its binary indicator column. */
  predicate VariantsAllocated(m: Model, starts: seq<int>, profileLength: nat, horizon: int, r: (Model, seq<VariantIndexes>)) {
    r.0 == m.(ncols := r.0.ncols, binaries := r.0.binaries)
    && r.0.binaries == m.binaries + VariantIndicators(r.1)
    && |r.1| == |starts|
    && (forall j :: 0 <= j < |starts| ==>
          r.1[j].startInterval == starts[j]
          && r.1[j].length == VariantColumns(profileLength, horizon, starts[j])
          && VariantShaped(r.1[j]))
    && Contiguous(VariantSpans(r.1), m.ncols + 1, r.0.ncols + 1)
  }

  /** Allocating the variant of one more start interval. */
  lemma AllocateVariantsSnoc(m: Model, starts: seq<int>, profileLength: nat, horizon: int,
                             r1: (Model, seq<VariantIndexes>), r2: (Model, VariantIndexes))
    requires starts != [] && VariantsAllocated(m, starts[..|starts| - 1], profileLength, horizon, r1)
    requires r2 == AddVariant(r1.0, starts[|starts| - 1], profileLength, horizon)
    ensures VariantsAllocated(m, starts, profileLength, horizon, (r2.0, r1.1 + [r2.1]))
  {
    var vs, x := r1.1, r2.1;
    assert forall j :: 0 <= j < |vs| ==> (vs + [x])[j] == vs[j] && starts[..|starts| - 1][j] == starts[j];
    assert (vs + [x])[|vs|] == x;
    assert VariantSpans(vs + [x]) == VariantSpans(vs) + [Span(x.power, Width(x.length) + 1)];
    assert VariantIndicators(vs + [x]) == VariantIndicators(vs) + {x.variantIndicator};
    ContiguousSnoc(VariantSpans(vs), m.ncols + 1, Span(x.power, Width(x.length) + 1));
  }

  /** The variants of one movable demand, one per start interval, in the start set's order. */
  function AllocateVariants(m: Model, starts: seq<int>, profileLength: nat, horizon: int): (r: (Model, seq<VariantIndexes>))
    ensures VariantsAllocated(m, starts, profileLength, horizon, r)
    decreases |starts|
  {
    if starts == [] then (m, [])
    else
      var r1 := AllocateVariants(m, starts[..|starts| - 1], profileLength, horizon);
      var r2 := AddVariant(r1.0, starts[|starts| - 1], profileLength, horizon);
      AllocateVariantsSnoc(m, starts, profileLength, horizon, r1, r2);
      (r2.0, r1.1 + [r2.1])
  }

  function MovableIndicators(vss: seq<seq<VariantIndexes>>): set<int>
    decreases |vss|
  {
    if vss == [] then {} else MovableIndicators(vss[..|vss| - 1]) + VariantIndicators(vss[|vss| - 1])
  }

  /** The variant facts of one movable demand's records. */
  predicate VariantsOf(vs: seq<VariantIndexes>, d: MovableDemand, horizon: int) {
    |vs| == |d.startIntervals|
    && forall j :: 0 <= j < |vs| ==>
         vs[j].startInterval == d.startIntervals[j]
         && vs[j].length == VariantColumns(|d.profile|, horizon, d.startIntervals[j])
         && VariantShaped(vs[j])
  }

  /** What allocating the movable demands ds promises: the variants of each demand, demand after
      demand, from the first free column on. */
  predicate MovablesAllocated(m: Model, ds: seq<MovableDemand>, horizon: int, r: (Model, seq<seq<VariantIndexes>>)) {
    r.0 == m.(ncols := r.0.ncols, binaries := r.0.binaries)
    && r.0.binaries == m.binaries + MovableIndicators(r.1)
    && |r.1| == |ds|
    && (forall d :: 0 <= d < |ds| ==> VariantsOf(r.1[d], ds[d], horizon))
    && Contiguous(MovableSpans(r.1), m.ncols + 1, r.0.ncols + 1)
  }

  /** Allocating the variants of one more movable demand. */
  lemma AllocateMovablesSnoc(m: Model, ds: seq<MovableDemand>, horizon: int,
                             r1: (Model, seq<seq<VariantIndexes>>), r2: (Model, seq<VariantIndexes>))
    requires ds != [] && MovablesAllocated(m, ds[..|ds| - 1], horizon, r1)
    requires VariantsAllocated(r1.0, ds[|ds| - 1].startIntervals, |ds[|ds| - 1].profile|, horizon, r2)
    ensures MovablesAllocated(m, ds, horizon, (r2.0, r1.1 + [r2.1]))
  {
    var vss, vs := r1.1, r2.1;
    assert (vss + [vs])[..|vss|] == vss;
    forall d | 0 <= d < |ds|
      ensures VariantsOf((vss + [vs])[d], ds[d], horizon)
    {
      if d < |vss| {
        assert (vss + [vs])[d] == vss[d];
        assert ds[..|ds| - 1][d] == ds[d];
      } else {
        assert (vss + [vs])[d] == vs;
      }
    }
    assert MovableIndicators(vss + [vs]) == MovableIndicators(vss) + VariantIndicators(vs);
    ContiguousAppend(MovableSpans(vss), VariantSpans(vs), m.ncols + 1, r1.0.ncols + 1, r2.0.ncols + 1);
  }

  /** `assignMovableDemandVariables`. */
  function AllocateMovables(m: Model, ds: seq<MovableDemand>, horizon: int): (r: (Model, seq<seq<VariantIndexes>>))
    ensures MovablesAllocated(m, ds, horizon, r)
    decreases |ds|
  {
    if ds == [] then (m, [])
    else
      var r1 := AllocateMovables(m, ds[..|ds| - 1], horizon);
      var r2 := AllocateVariants(r1.0, ds[|ds| - 1].startIntervals, |ds[|ds| - 1].profile|, horizon);
      AllocateMovablesSnoc(m, ds, horizon, r1, r2);
      (r2.0, r1.1 + [r2.1])
  }

  /** The index records agree with the task entity by entity. */
  predicate Shaped(task: Task, layout: Layout) {
    var horizon := task.OptimizationHorizonLength();
    |layout.contracts| == |task.contracts|
    && (forall i :: 0 <= i < |task.contracts| ==> layout.contracts[i].length == ContractColumns(task.contracts[i], horizon))
    && |layout.storages| == |task.storages|
    && (forall i :: 0 <= i < |task.storages| ==> StorageShaped(layout.storages[i], horizon))
    && |layout.variants| == |task.movableDemands|
    && (forall d :: 0 <= d < |task.movableDemands| ==> VariantsOf(layout.variants[d], task.movableDemands[d], horizon))
  }

  /** Every block of the layout, in allocation order. */
  function LayoutSpans(layout: Layout, horizon: nat): seq<Span> {
    ContractSpans(layout.contracts) + StorageSpans(layout.storages, horizon) + MovableSpans(layout.variants)
  }

  /** Joins the three allocation phases: the layout is shaped and its blocks follow each other. */
  lemma AllocateJoin(m: Model, task: Task, r1: (Model, seq<ContractIndexes>), r2: (Model, seq<StorageIndexes>),
                     r3: (Model, seq<seq<VariantIndexes>>))
    requires ContractsAllocated(m, task.contracts, task.OptimizationHorizonLength(), r1)
    requires StoragesAllocated(r1.0, task.storages, task.OptimizationHorizonLength(), r2)
    requires MovablesAllocated(r2.0, task.movableDemands, task.OptimizationHorizonLength(), r3)
    ensures r3.0 == m.(ncols := r3.0.ncols, binaries := r3.0.binaries)
    ensures Shaped(task, Layout(r1.1, r2.1, r3.1))
    ensures Contiguous(LayoutSpans(Layout(r1.1, r2.1, r3.1), task.OptimizationHorizonLength()), m.ncols + 1, r3.0.ncols + 1)
  {
    var horizon := task.OptimizationHorizonLength();
    ContiguousAppend(ContractSpans(r1.1), StorageSpans(r2.1, horizon), m.ncols + 1, r1.0.ncols + 1, r2.0.ncols + 1);
    ContiguousAppend(ContractSpans(r1.1) + StorageSpans(r2.1, horizon), MovableSpans(r3.1),
                     m.ncols + 1, r2.0.ncols + 1, r3.0.ncols + 1);
  }

  /** The three allocation phases, on the solver model left by `setTimeOut` and `setRelativeGap`. */
  function Allocate(m: Model, task: Task): (r: (Model, Layout))
    ensures r.0 == m.(ncols := r.0.ncols, binaries := r.0.binaries)
    ensures Shaped(task, r.1)
    ensures Contiguous(LayoutSpans(r.1, task.OptimizationHorizonLength()), m.ncols + 1, r.0.ncols + 1)
  {
    var horizon := task.OptimizationHorizonLength();
    var r1 := AllocateContracts(m, task.contracts, horizon);
    var r2 := AllocateStorages(r1.0, task.storages, horizon);
    var r3 := AllocateMovables(r2.0, task.movableDemands, horizon);
    AllocateJoin(m, task, r1, r2, r3);
    assert Contiguous(LayoutSpans(Layout(r1.1, r2.1, r3.1), horizon), m.ncols + 1, r3.0.ncols + 1);
    (r3.0, Layout(r1.1, r2.1, r3.1))
  }
}
