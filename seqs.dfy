/**
 * Sequence and map folds shared by the model builder: the concatenation of nested loops'
 * output, and a run of `HashMap.put` calls, some of them skipped by a filter.
 */
module Seqs {
  import opened Wrappers

  function Concat<T>(ss: seq<seq<T>>): (r: seq<T>)
    decreases |ss|
  {
    if ss == [] then [] else Concat(ss[..|ss| - 1]) + ss[|ss| - 1]
  }

  lemma ConcatSnoc<T>(ss: seq<seq<T>>, i: nat)
    requires i < |ss|
    ensures Concat(ss[..i + 1]) == Concat(ss[..i]) + ss[i]
  {
    assert ss[..i + 1][..i] == ss[..i];
  }

  /** The output of the first i outer iterations is a prefix of the whole output. */
  lemma {:induction false} ConcatPrefix<T>(ss: seq<seq<T>>, i: nat)
    requires i <= |ss|
    ensures Concat(ss[..i]) <= Concat(ss)
    decreases |ss| - i
  {
    if i == |ss| {
      assert ss[..i] == ss;
    } else {
      ConcatSnoc(ss, i);
      ConcatPrefix(ss, i + 1);
    }
  }

  /** Element j of the i-th inner sequence sits right after the output of the first i outer iterations. */
  lemma ConcatIndex<T>(ss: seq<seq<T>>, i: nat, j: nat)
    requires i < |ss| && j < |ss[i]|
    ensures |Concat(ss[..i])| + j < |Concat(ss[..i + 1])| <= |Concat(ss)|
    ensures Concat(ss)[|Concat(ss[..i])| + j] == ss[i][j]
  {
    ConcatSnoc(ss, i);
    ConcatPrefix(ss, i + 1);
  }

  /** Earlier outer iterations produce output at earlier positions. */
  lemma {:induction false} ConcatMonotone<T>(ss: seq<seq<T>>, i: nat, k: nat)
    requires i <= k <= |ss|
    ensures |Concat(ss[..i])| <= |Concat(ss[..k])|
    decreases k - i
  {
    if i < k {
      ConcatSnoc(ss, i);
      ConcatMonotone(ss, i + 1, k);
    }
  }

  /** A property of every element of every inner sequence holds of every element of the concatenation. */
  lemma {:induction false} ConcatForall<T>(ss: seq<seq<T>>, P: T -> bool)
    requires forall i, j :: 0 <= i < |ss| && 0 <= j < |ss[i]| ==> P(ss[i][j])
    ensures forall p :: 0 <= p < |Concat(ss)| ==> P(Concat(ss)[p])
    decreases |ss|
  {
    if ss != [] {
      var init := ss[..|ss| - 1];
      assert forall i :: 0 <= i < |init| ==> init[i] == ss[i];
      ConcatForall(init, P);
    }
  }

  /** A run of `put(k, v)` calls on `m`, one per present entry, in order. */
  function PutEntries(m: map<int, real>, es: seq<Option<(int, real)>>): map<int, real>
    decreases |es|
  {
    if es == [] then m
    else
      var prefix := PutEntries(m, es[..|es| - 1]);
      match es[|es| - 1]
      case None => prefix
      case Some(entry) => prefix[entry.0 := entry.1]
  }

  predicate HasKey(e: Option<(int, real)>, k: int) {
    e.Some? && e.value.0 == k
  }

  /** The keys after the run: the original ones and those of the entries. */
  lemma {:induction false} PutEntriesKeys(m: map<int, real>, es: seq<Option<(int, real)>>, k: int)
    ensures k in PutEntries(m, es) <==> k in m || exists j :: 0 <= j < |es| && HasKey(es[j], k)
    decreases |es|
  {
    if es != [] {
      var init := es[..|es| - 1];
      PutEntriesKeys(m, init, k);
      if exists j :: 0 <= j < |es| && HasKey(es[j], k) {
        var j :| 0 <= j < |es| && HasKey(es[j], k);
        if j < |es| - 1 {
          assert init[j] == es[j];
        }
      }
      assert forall j :: 0 <= j < |init| ==> init[j] == es[j];
    }
  }

  /** A key the entries never name keeps its original binding. */
  lemma {:induction false} PutEntriesUntouched(m: map<int, real>, es: seq<Option<(int, real)>>, k: int)
    requires forall j :: 0 <= j < |es| ==> !HasKey(es[j], k)
    ensures (k in PutEntries(m, es) <==> k in m) && (k in m ==> PutEntries(m, es)[k] == m[k])
    decreases |es|
  {
    if es != [] {
      var init := es[..|es| - 1];
      assert forall j :: 0 <= j < |init| ==> init[j] == es[j];
      PutEntriesUntouched(m, init, k);
    }
  }

  /** When every entry naming k carries v, and one does, the run binds k to v whatever the order. */
  lemma {:induction false} PutEntriesUniform(m: map<int, real>, es: seq<Option<(int, real)>>, k: int, v: real, j: nat)
    requires j < |es| && HasKey(es[j], k)
    requires forall i :: 0 <= i < |es| && HasKey(es[i], k) ==> es[i].value.1 == v
    ensures k in PutEntries(m, es) && PutEntries(m, es)[k] == v
    decreases |es|
  {
    var init := es[..|es| - 1];
    if !HasKey(es[|es| - 1], k) {
      assert init[j] == es[j];
      assert forall i :: 0 <= i < |init| ==> init[i] == es[i];
      PutEntriesUniform(m, init, k, v, j);
    }
  }
}
