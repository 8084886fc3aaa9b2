/**
 * The power balance rows of service/OptimizerImpl (`setUpPowerBalance`) on a layout that
 * `assign*Variables` produced: on every interval the row weighs each active contract's
 * power by +1 (purchase) or -1 (sale), each storage's charge by -1 and discharge by +1,
 * and each variant covering the interval by -1, and it names valid columns only.
 */
module Balance {
  import opened Wrappers
  import opened Seqs
  import opened SolverModel
  import opened Contracts
  import opened Tasks
  import opened Layouts
  import opened ModelCalls

  /** The blocks were allocated one after the other between columns lo and hi. */
  predicate Allocated(task: Task, layout: Layout, lo: int, hi: int) {
    Shaped(task, layout) && Contiguous(LayoutSpans(layout, task.OptimizationHorizonLength()), lo, hi)
  }

  predicate InSpan(k: int, s: Span) {
    s.first <= k < End(s)
  }

  /** k lies after every one of the first n blocks. */
  predicate AfterAll(k: int, spans: seq<Span>, n: int) {
    forall a :: 0 <= a < n && a < |spans| ==> End(spans[a]) <= k
  }

  /** Columns in two different blocks are different, the earlier block's below the later's. */
  lemma Separate(spans: seq<Span>, lo: int, hi: int, a: int, b: int, k1: int, k2: int)
    requires Contiguous(spans, lo, hi) && 0 <= a < b < |spans|
    requires InSpan(k1, spans[a]) && InSpan(k2, spans[b])
    ensures k1 < k2
  {
    ContiguousOrdered(spans, lo, hi);
  }

  lemma Inside(spans: seq<Span>, lo: int, hi: int, a: int, k: int)
    requires Contiguous(spans, lo, hi) && 0 <= a < |spans| && InSpan(k, spans[a])
    ensures lo <= k < hi
  {
    ContiguousOrdered(spans, lo, hi);
  }

  /** Where each entity's block sits among the layout's spans. */
  lemma SpanPositions(task: Task, layout: Layout)
    requires Shaped(task, layout)
    ensures var spans := LayoutSpans(layout, task.OptimizationHorizonLength());
            var nc := |layout.contracts|;
            && (forall i :: 0 <= i < nc ==> spans[i] == Span(layout.contracts[i].power, Width(layout.contracts[i].length)))
            && (forall s :: 0 <= s < |layout.storages| ==>
                  spans[nc + s] == Span(layout.storages[s].charge, 4 * task.OptimizationHorizonLength()))
            && |spans| == nc + |layout.storages| + |MovableSpans(layout.variants)|
  {
  }

  lemma VariantSpanPosition(task: Task, layout: Layout, d: nat, j: nat)
    requires Shaped(task, layout) && d < |layout.variants| && j < |layout.variants[d]|
    ensures var spans := LayoutSpans(layout, task.OptimizationHorizonLength());
            var a := |layout.contracts| + |layout.storages| + VariantPosition(layout.variants, d, j);
            && a < |spans|
            && spans[a] == Span(layout.variants[d][j].power, Width(layout.variants[d][j].length) + 1)
  {
    MovableSpansIndex(layout.variants, d, j);
  }

  /** An active contract's power column of an interval of the horizon lies in its block. */
  lemma ContractColumnInBlock(task: Task, layout: Layout, t: int, i: int)
    requires Shaped(task, layout) && 0 <= t < task.OptimizationHorizonLength()
    requires 0 <= i < |task.contracts| && task.contracts[i].IsActiveAt(t)
    ensures InSpan(PowerColumn(task.contracts[i], layout.contracts[i], t),
                   Span(layout.contracts[i].power, Width(layout.contracts[i].length)))
  {
  }

  /** Every movable entry of the row names a column after all contract and storage blocks. */
  lemma MovableEntriesAfter(task: Task, layout: Layout, lo: int, hi: int, t: int)
    requires Allocated(task, layout, lo, hi)
    ensures var n := |layout.contracts| + |layout.storages|;
            var spans := LayoutSpans(layout, task.OptimizationHorizonLength());
            var es := MovableBalanceEntries(layout, t);
            forall p :: 0 <= p < |es| && es[p].Some? ==> AfterAll(es[p].value.0, spans, n) && lo <= es[p].value.0 < hi
  {
    var n := |layout.contracts| + |layout.storages|;
    var spans := LayoutSpans(layout, task.OptimizationHorizonLength());
    var groups := seq(|layout.variants|, d requires 0 <= d < |layout.variants| => VariantBalanceEntries(layout.variants[d], t));
    var P := (e: Option<(int, real)>) => e.Some? ==> AfterAll(e.value.0, spans, n) && lo <= e.value.0 < hi;
    forall d, j | 0 <= d < |groups| && 0 <= j < |groups[d]|
      ensures P(groups[d][j])
    {
      var v := layout.variants[d][j];
      if Covers(v, t) {
        var k := v.power + t - v.startInterval;
        var b := n + VariantPosition(layout.variants, d, j);
        VariantSpanPosition(task, layout, d, j);
        assert InSpan(k, spans[b]);
        forall a | 0 <= a < n && a < |spans|
          ensures End(spans[a]) <= k
        {
          ContiguousOrdered(spans, lo, hi);
        }
        Inside(spans, lo, hi, b, k);
      }
    }
    ConcatForall(groups, P);
  }

  /** Every movable entry carries -1. */
  lemma MovableEntriesNegative(layout: Layout, t: int)
    ensures var es := MovableBalanceEntries(layout, t);
            forall p :: 0 <= p < |es| && es[p].Some? ==> es[p].value.1 == -1.0
  {
    var groups := seq(|layout.variants|, d requires 0 <= d < |layout.variants| => VariantBalanceEntries(layout.variants[d], t));
    ConcatForall(groups, (e: Option<(int, real)>) => e.Some? ==> e.value.1 == -1.0);
  }

  /** A contract's entry of the row of interval t points into the contract's block. */
  lemma ContractEntryLocation(task: Task, layout: Layout, lo: int, hi: int, t: int, p: int)
    requires Allocated(task, layout, lo, hi) && 0 <= t < task.OptimizationHorizonLength()
    requires 0 <= p < |layout.contracts|
    ensures var es := BalanceEntries(task, layout, t);
            var spans := LayoutSpans(layout, task.OptimizationHorizonLength());
            p < |es| && p < |spans| && (es[p].Some? ==> InSpan(es[p].value.0, spans[p]) && lo <= es[p].value.0 < hi)
  {
    var es := BalanceEntries(task, layout, t);
    var spans := LayoutSpans(layout, task.OptimizationHorizonLength());
    SpanPositions(task, layout);
    assert es[p] == ContractBalanceEntries(task, layout, t)[p];
    if es[p].Some? {
      ContractColumnInBlock(task, layout, t, p);
      Inside(spans, lo, hi, p, es[p].value.0);
    }
  }

  /** A storage's charge entry of the row of interval t points into the storage's block. */
  lemma ChargeEntryLocation(task: Task, layout: Layout, t: int, p: int)
    requires Shaped(task, layout) && 0 <= t < task.OptimizationHorizonLength()
    requires |layout.contracts| <= p < |layout.contracts| + |layout.storages|
    ensures var es := BalanceEntries(task, layout, t);
            var spans := LayoutSpans(layout, task.OptimizationHorizonLength());
            var nc := |layout.contracts|;
            p < |es| && p < |spans| && es[p] == Some((layout.storages[p - nc].charge + t, -1.0)) && InSpan(es[p].value.0, spans[p])
  {
    var nc := |layout.contracts|;
    SpanPositions(task, layout);
    assert BalanceEntries(task, layout, t)[p] == ChargeBalanceEntries(layout, t)[p - nc];
  }

  /** A storage's discharge entry of the row of interval t points into the storage's block. */
  lemma DischargeEntryLocation(task: Task, layout: Layout, t: int, p: int)
    requires Shaped(task, layout) && 0 <= t < task.OptimizationHorizonLength()
    requires |layout.contracts| + |layout.storages| <= p < |layout.contracts| + 2 * |layout.storages|
    ensures var es := BalanceEntries(task, layout, t);
            var spans := LayoutSpans(layout, task.OptimizationHorizonLength());
            var nc, ns := |layout.contracts|, |layout.storages|;
            p < |es| && p - ns < |spans| && es[p] == Some((layout.storages[p - nc - ns].discharge + t, 1.0))
            && InSpan(es[p].value.0, spans[p - ns])
  {
    var nc, ns := |layout.contracts|, |layout.storages|;
    SpanPositions(task, layout);
    assert BalanceEntries(task, layout, t)[p] == DischargeBalanceEntries(layout, t)[p - nc - ns];
  }

  /** A variant's entry of the row of interval t points after every contract and storage block. */
  lemma MovableEntryLocation(task: Task, layout: Layout, lo: int, hi: int, t: int, p: int)
    requires Allocated(task, layout, lo, hi) && 0 <= t < task.OptimizationHorizonLength()
    requires |layout.contracts| + 2 * |layout.storages| <= p < |BalanceEntries(task, layout, t)|
    ensures var es := BalanceEntries(task, layout, t);
            var spans := LayoutSpans(layout, task.OptimizationHorizonLength());
            es[p].Some? ==> AfterAll(es[p].value.0, spans, |layout.contracts| + |layout.storages|)
                            && lo <= es[p].value.0 < hi && es[p].value.1 == -1.0
  {
    var nc, ns := |layout.contracts|, |layout.storages|;
    var mv := MovableBalanceEntries(layout, t);
    assert BalanceEntries(task, layout, t)[p] == mv[p - nc - 2 * ns];
    MovableEntriesAfter(task, layout, lo, hi, t);
    MovableEntriesNegative(layout, t);
  }

  /** Where entry p of the row of interval t points, by the part of the row it comes from. */
  lemma EntryLocation(task: Task, layout: Layout, lo: int, hi: int, t: int, p: int)
    requires Allocated(task, layout, lo, hi) && 0 <= t < task.OptimizationHorizonLength()
    requires 0 <= p < |BalanceEntries(task, layout, t)|
    ensures var es := BalanceEntries(task, layout, t);
            var spans := LayoutSpans(layout, task.OptimizationHorizonLength());
            var nc, ns := |layout.contracts|, |layout.storages|;
            && (p < nc ==> es[p].Some? ==> InSpan(es[p].value.0, spans[p]) && lo <= es[p].value.0 < hi)
            && (nc <= p < nc + ns ==> es[p] == Some((layout.storages[p - nc].charge + t, -1.0))
                                      && InSpan(es[p].value.0, spans[p]))
            && (nc + ns <= p < nc + 2 * ns ==> es[p] == Some((layout.storages[p - nc - ns].discharge + t, 1.0))
                                               && InSpan(es[p].value.0, spans[p - ns]))
            && (nc + 2 * ns <= p ==> es[p].Some? ==> AfterAll(es[p].value.0, spans, nc + ns) && lo <= es[p].value.0 < hi
                                                     && es[p].value.1 == -1.0)
  {
    var nc, ns := |layout.contracts|, |layout.storages|;
    if p < nc {
      ContractEntryLocation(task, layout, lo, hi, t, p);
    } else if p < nc + ns {
      ChargeEntryLocation(task, layout, t, p);
    } else if p < nc + 2 * ns {
      DischargeEntryLocation(task, layout, t, p);
    } else {
      MovableEntryLocation(task, layout, lo, hi, t, p);
    }
  }

  /** The row of interval t weighs an active contract's power by its direction. */
  lemma ContractBalanceCoefficient(task: Task, layout: Layout, lo: int, hi: int, t: int, i: int)
    requires Allocated(task, layout, lo, hi) && 0 <= t < task.OptimizationHorizonLength()
    requires 0 <= i < |task.contracts| && task.contracts[i].IsActiveAt(t)
    ensures var k := PowerColumn(task.contracts[i], layout.contracts[i], t);
            k in BalanceWeights(task, layout, t) && BalanceWeights(task, layout, t)[k] == DirectionWeight(task.contracts[i])
  {
    var spans := LayoutSpans(layout, task.OptimizationHorizonLength());
    var nc, ns := |layout.contracts|, |layout.storages|;
    var es := BalanceEntries(task, layout, t);
    var k := PowerColumn(task.contracts[i], layout.contracts[i], t);
    var w := DirectionWeight(task.contracts[i]);
    assert es[i] == Some((k, w));
    EntryLocation(task, layout, lo, hi, t, i);
    forall p | 0 <= p < |es|
      ensures HasKey(es[p], k) ==> es[p].value.1 == w
    {
      EntryLocation(task, layout, lo, hi, t, p);
      if es[p].Some? && p != i {
        if p < i {
          Separate(spans, lo, hi, p, i, es[p].value.0, k);
        } else if p < nc + 2 * ns {
          Separate(spans, lo, hi, i, if p < nc + ns then p else p - ns, k, es[p].value.0);
        } else {
          assert End(spans[i]) <= es[p].value.0;
        }
      }
    }
    PutEntriesUniform(map[], es, k, w, i);
  }

  /** The row of interval t weighs each storage's charge by -1. */
  lemma ChargeBalanceCoefficient(task: Task, layout: Layout, lo: int, hi: int, t: int, s: int)
    requires Allocated(task, layout, lo, hi) && 0 <= t < task.OptimizationHorizonLength()
    requires 0 <= s < |task.storages|
    ensures var k := layout.storages[s].charge + t;
            k in BalanceWeights(task, layout, t) && BalanceWeights(task, layout, t)[k] == -1.0
  {
    var spans := LayoutSpans(layout, task.OptimizationHorizonLength());
    var nc, ns := |layout.contracts|, |layout.storages|;
    var es := BalanceEntries(task, layout, t);
    var k := layout.storages[s].charge + t;
    EntryLocation(task, layout, lo, hi, t, nc + s);
    forall p | 0 <= p < |es|
      ensures HasKey(es[p], k) ==> es[p].value.1 == -1.0
    {
      EntryLocation(task, layout, lo, hi, t, p);
      if es[p].Some? {
        if p < nc {
          Separate(spans, lo, hi, p, nc + s, es[p].value.0, k);
        } else if nc + ns <= p < nc + 2 * ns {
          var b := p - ns;
          if b < nc + s { Separate(spans, lo, hi, b, nc + s, es[p].value.0, k); }
          else if nc + s < b { Separate(spans, lo, hi, nc + s, b, k, es[p].value.0); }
        } else if nc + 2 * ns <= p {
          assert End(spans[nc + s]) <= es[p].value.0;
        }
      }
    }
    PutEntriesUniform(map[], es, k, -1.0, nc + s);
  }

  /** The row of interval t weighs each storage's discharge by +1. */
  lemma DischargeBalanceCoefficient(task: Task, layout: Layout, lo: int, hi: int, t: int, s: int)
    requires Allocated(task, layout, lo, hi) && 0 <= t < task.OptimizationHorizonLength()
    requires 0 <= s < |task.storages|
    ensures var k := layout.storages[s].discharge + t;
            k in BalanceWeights(task, layout, t) && BalanceWeights(task, layout, t)[k] == 1.0
  {
    var spans := LayoutSpans(layout, task.OptimizationHorizonLength());
    var nc, ns := |layout.contracts|, |layout.storages|;
    var es := BalanceEntries(task, layout, t);
    var k := layout.storages[s].discharge + t;
    EntryLocation(task, layout, lo, hi, t, nc + ns + s);
    forall p | 0 <= p < |es|
      ensures HasKey(es[p], k) ==> es[p].value.1 == 1.0
    {
      EntryLocation(task, layout, lo, hi, t, p);
      if es[p].Some? {
        if p < nc {
          Separate(spans, lo, hi, p, nc + s, es[p].value.0, k);
        } else if nc <= p < nc + ns {
          var b := p;
          if b < nc + s { Separate(spans, lo, hi, b, nc + s, es[p].value.0, k); }
          else if nc + s < b { Separate(spans, lo, hi, nc + s, b, k, es[p].value.0); }
        } else if nc + 2 * ns <= p {
          assert End(spans[nc + s]) <= es[p].value.0;
        }
      }
    }
    PutEntriesUniform(map[], es, k, 1.0, nc + ns + s);
  }

  /** The movable entry of variant j of demand d, and the block it points into. */
  lemma VariantEntry(task: Task, layout: Layout, t: int, d: int, j: int) returns (p: int, b: int)
    requires Shaped(task, layout)
    requires 0 <= d < |layout.variants| && 0 <= j < |layout.variants[d]| && Covers(layout.variants[d][j], t)
    ensures var v := layout.variants[d][j];
            var k := v.power + t - v.startInterval;
            var es := BalanceEntries(task, layout, t);
            var spans := LayoutSpans(layout, task.OptimizationHorizonLength());
            && |layout.contracts| + 2 * |layout.storages| <= p < |es| && es[p] == Some((k, -1.0))
            && |layout.contracts| + |layout.storages| <= b < |spans| && InSpan(k, spans[b])
  {
    var v := layout.variants[d][j];
    var nc, ns := |layout.contracts|, |layout.storages|;
    var groups := seq(|layout.variants|, e requires 0 <= e < |layout.variants| => VariantBalanceEntries(layout.variants[e], t));
    ConcatIndex(groups, d, j);
    var q := |Concat(groups[..d])| + j;
    p := nc + 2 * ns + q;
    b := nc + ns + VariantPosition(layout.variants, d, j);
    VariantSpanPosition(task, layout, d, j);
  }

  /** The row of interval t weighs the power column of each variant covering t by -1. */
  lemma VariantBalanceCoefficient(task: Task, layout: Layout, lo: int, hi: int, t: int, d: int, j: int)
    requires Allocated(task, layout, lo, hi) && 0 <= t < task.OptimizationHorizonLength()
    requires 0 <= d < |layout.variants| && 0 <= j < |layout.variants[d]| && Covers(layout.variants[d][j], t)
    ensures var v := layout.variants[d][j];
            var k := v.power + t - v.startInterval;
            k in BalanceWeights(task, layout, t) && BalanceWeights(task, layout, t)[k] == -1.0
  {
    var spans := LayoutSpans(layout, task.OptimizationHorizonLength());
    var nc, ns := |layout.contracts|, |layout.storages|;
    var es := BalanceEntries(task, layout, t);
    var v := layout.variants[d][j];
    var k := v.power + t - v.startInterval;
    var q, b := VariantEntry(task, layout, t, d, j);
    forall p | 0 <= p < |es|
      ensures HasKey(es[p], k) ==> es[p].value.1 == -1.0
    {
      EntryLocation(task, layout, lo, hi, t, p);
      if es[p].Some? {
        if p < nc {
          Separate(spans, lo, hi, p, b, es[p].value.0, k);
        } else if p < nc + 2 * ns {
          Separate(spans, lo, hi, if p < nc + ns then p else p - ns, b, es[p].value.0, k);
        }
      }
    }
    PutEntriesUniform(map[], es, k, -1.0, q);
  }

  /** Every column the row names was allocated, so the range check and lp_solve accept it. */
  lemma BalanceColumnsAllocated(task: Task, layout: Layout, lo: int, hi: int, t: int)
    requires Allocated(task, layout, lo, hi) && 0 <= t < task.OptimizationHorizonLength()
    ensures forall k :: k in BalanceWeights(task, layout, t) ==> lo <= k < hi
  {
    var spans := LayoutSpans(layout, task.OptimizationHorizonLength());
    var nc, ns := |layout.contracts|, |layout.storages|;
    var es := BalanceEntries(task, layout, t);
    forall k | k in BalanceWeights(task, layout, t)
      ensures lo <= k < hi
    {
      PutEntriesKeys(map[], es, k);
      var p :| 0 <= p < |es| && HasKey(es[p], k);
      EntryLocation(task, layout, lo, hi, t, p);
      if nc <= p < nc + 2 * ns {
        Inside(spans, lo, hi, if p < nc + ns then p else p - ns, k);
      }
    }
  }
}
