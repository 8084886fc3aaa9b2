/**
 * The objective of service/OptimizerImpl (`setUpObjectiveFunction`) on an allocated layout:
 * the power column of each active contract and interval carries the contract's price times
 * the interval's duration (negated for a sale), and no other column is weighed.
 */
module Objective {
  import opened Wrappers
  import opened Seqs
  import opened SolverModel
  import opened Contracts
  import opened Tasks
  import opened Layouts
  import opened ModelCalls
  import opened Balance

  /** Every objective entry of contract i names a column of the contract's block. */
  lemma ObjectiveEntriesInBlock(task: Task, layout: Layout, i: int)
    requires Shaped(task, layout) && 0 <= i < |task.contracts|
    ensures var es := ObjectiveEntries(task, task.contracts[i], layout.contracts[i]);
            forall t :: 0 <= t < |es| && es[t].Some? ==>
              es[t].value.0 == PowerColumn(task.contracts[i], layout.contracts[i], t)
              && InSpan(es[t].value.0, LayoutSpans(layout, task.OptimizationHorizonLength())[i])
  {
    SpanPositions(task, layout);
    forall t | 0 <= t < task.OptimizationHorizonLength() && task.contracts[i].IsActiveAt(t) {
      ContractColumnInBlock(task, layout, t, i);
    }
  }

  /** The objective weighs contract i's power at an active interval t by its cost coefficient. */
  lemma ObjectiveCoefficient(task: Task, layout: Layout, lo: int, hi: int, t: int, i: int)
    requires Allocated(task, layout, lo, hi) && 0 <= t < task.OptimizationHorizonLength()
    requires 0 <= i < |task.contracts| && task.contracts[i].IsActiveAt(t)
    ensures var k := PowerColumn(task.contracts[i], layout.contracts[i], t);
            k in ObjectiveCoefficients(task, layout)
            && ObjectiveCoefficients(task, layout)[k] == CostCoefficient(task.contracts[i], task.intervals, t)
  {
    var spans := LayoutSpans(layout, task.OptimizationHorizonLength());
    var groups := ObjectiveEntryGroups(task, layout);
    var k := PowerColumn(task.contracts[i], layout.contracts[i], t);
    var w := CostCoefficient(task.contracts[i], task.intervals, t);
    ObjectiveEntriesInBlock(task, layout, i);
    forall a, b | 0 <= a < |groups| && 0 <= b < |groups[a]|
      ensures HasKey(groups[a][b], k) ==> groups[a][b].value.1 == w
    {
      ObjectiveEntriesInBlock(task, layout, a);
      if groups[a][b].Some? {
        if a < i {
          Separate(spans, lo, hi, a, i, groups[a][b].value.0, k);
        } else if i < a {
          Separate(spans, lo, hi, i, a, k, groups[a][b].value.0);
        }
      }
    }
    ConcatForall(groups, (e: Option<(int, real)>) => HasKey(e, k) ==> e.value.1 == w);
    ConcatIndex(groups, i, t);
    PutEntriesUniform(map[], Concat(groups), k, w, |Concat(groups[..i])| + t);
  }

  /** Only contract power columns are weighed: every objective column lies before all storage and variant blocks. */
  lemma ObjectiveOnlyOnContracts(task: Task, layout: Layout, lo: int, hi: int)
    requires Allocated(task, layout, lo, hi)
    ensures var spans := LayoutSpans(layout, task.OptimizationHorizonLength());
            forall k :: k in ObjectiveCoefficients(task, layout) ==>
              lo <= k && forall a :: |task.contracts| <= a < |spans| ==> k < spans[a].first
  {
    var spans := LayoutSpans(layout, task.OptimizationHorizonLength());
    var groups := ObjectiveEntryGroups(task, layout);
    var nc := |task.contracts|;
    var P := (e: Option<(int, real)>) => e.Some? ==> lo <= e.value.0 && forall a :: nc <= a < |spans| ==> e.value.0 < spans[a].first;
    forall c, b | 0 <= c < |groups| && 0 <= b < |groups[c]|
      ensures P(groups[c][b])
    {
      ObjectiveEntriesInBlock(task, layout, c);
      ContiguousOrdered(spans, lo, hi);
    }
    ConcatForall(groups, P);
    forall k | k in ObjectiveCoefficients(task, layout)
      ensures lo <= k && forall a :: nc <= a < |spans| ==> k < spans[a].first
    {
      PutEntriesKeys(map[], Concat(groups), k);
      var p :| 0 <= p < |Concat(groups)| && HasKey(Concat(groups)[p], k);
      assert P(Concat(groups)[p]);
    }
  }
}
