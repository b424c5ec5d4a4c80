/** Starting queued runs (processActiveRuns, reorderPriorityQueues and discardRun in
    internal/scheduler/scheduler.go).

    `Reordered` says what the loops over the queue do, and they are proved equal to it; module RunPromotion
    has the loop that starts runs. */
module RunQueue {
  import opened StableSort

  datatype Policy = Parallel | SerialWait | SerialPriority | SerialDiscard

  datatype DagConf = DagConf(policy: Policy, maxActiveRuns: nat)

  type Dags = map<string, DagConf>

  datatype Run = Run(id: string, dag: string, priority: int, date: int, held: bool)

  predicate MoreUrgent(a: Run, b: Run) {
    a.priority > b.priority || (a.priority == b.priority && a.date < b.date)
  }

  lemma MoreUrgentIsStrictWeak()
    ensures StrictWeak(MoreUrgent)
  {
  }

  // ---- reordering ----

  /** The queue of one DAG, in list order. */
  function OfDag(queued: seq<Run>, dag: string): seq<Run> {
    if queued == [] then []
    else
      var r := queued[|queued| - 1];
      OfDag(queued[..|queued| - 1], dag) + if r.dag == dag then [r] else []
  }

  predicate Prioritised(dags: Dags, dag: string) {
    dag in dags && dags[dag].policy.SerialPriority?
  }

  /** One DAG's queue as it will be drained. */
  function DrainOrder(dags: Dags, queued: seq<Run>, dag: string): (r: seq<Run>)
    ensures |r| == |OfDag(queued, dag)|
  {
    if Prioritised(dags, dag) then Sort(OfDag(queued, dag), MoreUrgent) else OfDag(queued, dag)
  }

  lemma {:induction false} OfDagFits(queued: seq<Run>, k: nat, dag: string)
    requires k <= |queued|
    ensures |OfDag(queued[..k], dag)| <= |OfDag(queued, dag)|
    ensures k < |queued| && queued[k].dag == dag ==> |OfDag(queued[..k], dag)| < |OfDag(queued, dag)|
    decreases |queued| - k
  {
    if k < |queued| {
      assert queued[..k + 1][..k] == queued[..k];
      OfDagFits(queued, k + 1, dag);
    } else {
      assert queued[..k] == queued;
    }
  }

  /** Slot `k` takes the next run of the DAG that held it. */
  function Slot(dags: Dags, queued: seq<Run>, k: nat): Run
    requires k < |queued|
  {
    var dag := queued[k].dag;
    OfDagFits(queued, k, dag);
    DrainOrder(dags, queued, dag)[|OfDag(queued[..k], dag)|]
  }

  function Reordered(dags: Dags, queued: seq<Run>): seq<Run> {
    seq(|queued|, k requires 0 <= k < |queued| => Slot(dags, queued, k))
  }

  lemma {:induction false} OfDagMembers(queued: seq<Run>, dag: string)
    ensures forall r :: r in OfDag(queued, dag) <==> r in queued && r.dag == dag
    decreases |queued|
  {
    if queued != [] {
      var n := |queued| - 1;
      OfDagMembers(queued[..n], dag);
      assert queued == queued[..n] + [queued[n]];
    }
  }

  lemma DrainOrderMembers(dags: Dags, queued: seq<Run>, dag: string)
    ensures multiset(DrainOrder(dags, queued, dag)) == multiset(OfDag(queued, dag))
    ensures forall r :: r in DrainOrder(dags, queued, dag) ==> r.dag == dag
  {
    OfDagMembers(queued, dag);
    SortIsPermutation(OfDag(queued, dag), MoreUrgent);
    forall r | r in DrainOrder(dags, queued, dag) ensures r.dag == dag {
      assert r in multiset(DrainOrder(dags, queued, dag));
      assert r in OfDag(queued, dag);
    }
  }

  lemma SlotKeepsDag(dags: Dags, queued: seq<Run>, k: nat)
    requires k < |queued|
    ensures Slot(dags, queued, k).dag == queued[k].dag
  {
    OfDagFits(queued, k, queued[k].dag);
    DrainOrderMembers(dags, queued, queued[k].dag);
    assert Slot(dags, queued, k) in DrainOrder(dags, queued, queued[k].dag);
  }

  lemma OfDagNext(queued: seq<Run>, k: nat, dag: string)
    requires k < |queued|
    ensures OfDag(queued[..k + 1], dag) == OfDag(queued[..k], dag) + if queued[k].dag == dag then [queued[k]] else []
  {
    assert queued[..k + 1][..k] == queued[..k];
  }

  ghost predicate PrefixDrained(dags: Dags, queued: seq<Run>, k: nat, dag: string)
    requires k <= |queued|
  {
    && |OfDag(queued[..k], dag)| <= |DrainOrder(dags, queued, dag)|
    && OfDag(Reordered(dags, queued)[..k], dag) == DrainOrder(dags, queued, dag)[..|OfDag(queued[..k], dag)|]
  }

  lemma TakesNext(out: seq<Run>, order: seq<Run>, k: nat, n: nat, dag: string)
    requires k < |out| && n <= |order| && OfDag(out[..k], dag) == order[..n]
    requires out[k].dag == dag ==> n < |order| && out[k] == order[n]
    ensures OfDag(out[..k + 1], dag) == order[..if out[k].dag == dag then n + 1 else n]
  {
    OfDagNext(out, k, dag);
    if out[k].dag == dag {
      assert order[..n + 1] == order[..n] + [order[n]];
    }
  }

  lemma DrainNext(dags: Dags, queued: seq<Run>, k: nat, dag: string)
    requires k < |queued| && PrefixDrained(dags, queued, k, dag)
    ensures PrefixDrained(dags, queued, k + 1, dag)
  {
    OfDagFits(queued, k, dag);
    OfDagFits(queued, k + 1, dag);
    OfDagNext(queued, k, dag);
    SlotKeepsDag(dags, queued, k);
    var out := Reordered(dags, queued);
    assert out[k] == Slot(dags, queued, k);
    TakesNext(out, DrainOrder(dags, queued, dag), k, |OfDag(queued[..k], dag)|, dag);
  }

  lemma {:induction false} PrefixDrains(dags: Dags, queued: seq<Run>, k: nat, dag: string)
    requires k <= |queued|
    ensures PrefixDrained(dags, queued, k, dag)
    decreases k
  {
    if k > 0 {
      PrefixDrains(dags, queued, k - 1, dag);
      DrainNext(dags, queued, k - 1, dag);
    }
  }

  /** Every DAG's runs come out exactly in its drain order: by priority and then date for serial_priority,
      and unchanged for every other DAG. */
  lemma ReorderedDrains(dags: Dags, queued: seq<Run>, dag: string)
    ensures OfDag(Reordered(dags, queued), dag) == DrainOrder(dags, queued, dag)
    ensures dag in dags && dags[dag].policy.SerialPriority? ==>
              Sorted(OfDag(Reordered(dags, queued), dag), MoreUrgent)
    ensures dag !in dags || !dags[dag].policy.SerialPriority? ==>
              OfDag(Reordered(dags, queued), dag) == OfDag(queued, dag)
  {
    var out := Reordered(dags, queued);
    PrefixDrains(dags, queued, |queued|, dag);
    assert out[..|queued|] == out && queued[..|queued|] == queued;
    MoreUrgentIsStrictWeak();
    SortIsSorted(OfDag(queued, dag), MoreUrgent);
  }

  /** A serial_priority DAG's queue drains the highest priority first, and within one priority the oldest
      period first. */
  lemma SerialPriorityOrder(dags: Dags, queued: seq<Run>, dag: string, i: nat, j: nat)
    requires dag in dags && dags[dag].policy.SerialPriority? && i < j < |OfDag(Reordered(dags, queued), dag)|
    ensures var a, b := OfDag(Reordered(dags, queued), dag)[i], OfDag(Reordered(dags, queued), dag)[j];
            a.priority > b.priority || (a.priority == b.priority && a.date <= b.date)
  {
    ReorderedDrains(dags, queued, dag);
    assert !MoreUrgent(OfDag(Reordered(dags, queued), dag)[j], OfDag(Reordered(dags, queued), dag)[i]);
  }

  /** Runs of equal priority and date keep the order they were listed in: the sort is stable. */
  lemma TiesKeepListingOrder(dags: Dags, queued: seq<Run>, dag: string, priority: int, date: int)
    ensures var tied := (r: Run) => r.priority == priority && r.date == date;
            Select(OfDag(Reordered(dags, queued), dag), tied) == Select(OfDag(queued, dag), tied)
  {
    ReorderedDrains(dags, queued, dag);
    SortIsStable(OfDag(queued, dag), MoreUrgent, (r: Run) => r.priority == priority && r.date == date);
  }

  lemma {:induction false} OfDagCounts(queued: seq<Run>, r: Run)
    ensures multiset(queued)[r] == multiset(OfDag(queued, r.dag))[r]
    decreases |queued|
  {
    if queued != [] {
      var n := |queued| - 1;
      OfDagCounts(queued[..n], r);
      assert queued == queued[..n] + [queued[n]];
    }
  }

  /** The reordering is a permutation that leaves each slot with its DAG. */
  lemma ReorderedPermutes(dags: Dags, queued: seq<Run>)
    ensures multiset(Reordered(dags, queued)) == multiset(queued)
    ensures forall k :: 0 <= k < |queued| ==> Reordered(dags, queued)[k].dag == queued[k].dag
  {
    var out := Reordered(dags, queued);
    forall r ensures multiset(out)[r] == multiset(queued)[r] {
      OfDagCounts(out, r);
      OfDagCounts(queued, r);
      ReorderedDrains(dags, queued, r.dag);
      DrainOrderMembers(dags, queued, r.dag);
    }
    forall k | 0 <= k < |queued| ensures out[k].dag == queued[k].dag {
      SlotKeepsDag(dags, queued, k);
    }
  }

  lemma OfDagNone(queued: seq<Run>, dag: string)
    requires forall r :: r in queued ==> r.dag != dag
    ensures OfDag(queued, dag) == []
  {
    OfDagMembers(queued, dag);
    if OfDag(queued, dag) != [] {
      assert OfDag(queued, dag)[0] in OfDag(queued, dag);
    }
  }

  type Buckets = map<string, seq<Run>>

  method BucketRuns(queued: seq<Run>) returns (byDag: Buckets)
    ensures forall d :: d in byDag <==> exists r :: r in queued && r.dag == d
    ensures forall d :: d in byDag ==> byDag[d] == OfDag(queued, d)
  {
    byDag := map[];
    for k := 0 to |queued|
      invariant forall d :: d in byDag <==> exists r :: r in queued[..k] && r.dag == d
      invariant forall d :: d in byDag ==> byDag[d] == OfDag(queued[..k], d)
    {
      var r := queued[k];
      assert queued[..k + 1] == queued[..k] + [r] && queued[..k + 1][..k] == queued[..k];
      if r.dag !in byDag {
        OfDagNone(queued[..k], r.dag);
      }
      ghost var before := byDag;
      byDag := byDag[r.dag := (if r.dag in byDag then byDag[r.dag] else []) + [r]];
      forall d ensures d in byDag <==> exists x :: x in queued[..k + 1] && x.dag == d {
        if d in before {
          var x :| x in queued[..k] && x.dag == d;
          assert x in queued[..k + 1];
        } else if d == r.dag {
          assert r in queued[..k + 1];
        }
      }
    }
    assert queued[..|queued|] == queued;
  }

  function SortedBucket(dags: Dags, byDag: Buckets, d: string): seq<Run>
    requires d in byDag
  {
    if Prioritised(dags, d) then Sort(byDag[d], MoreUrgent) else byDag[d]
  }

  /** Sorts the buckets of the serial_priority DAGs that have anything to sort. */
  method SortBuckets(dags: Dags, byDag: Buckets) returns (sorted: Buckets, changed: bool)
    ensures sorted.Keys == byDag.Keys
    ensures forall d :: d in byDag ==> sorted[d] == SortedBucket(dags, byDag, d)
    ensures !changed ==> sorted == byDag
  {
    sorted, changed := byDag, false;
    var left := byDag.Keys;
    while left != {}
      invariant left <= byDag.Keys == sorted.Keys
      invariant forall d :: d in byDag ==> sorted[d] == if d in left then byDag[d] else SortedBucket(dags, byDag, d)
      invariant !changed ==> sorted == byDag
      decreases |left|
    {
      var d :| d in left;
      left := left - {d};
      if Prioritised(dags, d) && |byDag[d]| >= 2 {
        sorted := sorted[d := Sort(byDag[d], MoreUrgent)];
        changed := true;
      } else {
        ShortSort(byDag[d]);
      }
    }
  }

  /** reorderPriorityQueues */
  method ReorderPriorityQueues(dags: Dags, queued: seq<Run>) returns (out: seq<Run>)
    ensures out == Reordered(dags, queued)
  {
    var byDag := BucketRuns(queued);
    var sorted, changed := SortBuckets(dags, byDag);
    assert Drainable(dags, queued, sorted) by {
      forall r | r in queued ensures r.dag in sorted && sorted[r.dag] == DrainOrder(dags, queued, r.dag) {
        assert r.dag in byDag;
      }
    }
    if !changed {
      forall r | r in queued ensures DrainOrder(dags, queued, r.dag) == OfDag(queued, r.dag) {
        assert r.dag in byDag;
      }
      UnchangedIsReordered(dags, queued);
      return queued;
    }
    out := Rebuild(dags, queued, sorted);
  }

  lemma ShortSort(runs: seq<Run>)
    ensures |runs| < 2 ==> Sort(runs, MoreUrgent) == runs
  {
  }

  lemma UnchangedIsReordered(dags: Dags, queued: seq<Run>)
    requires forall r :: r in queued ==> DrainOrder(dags, queued, r.dag) == OfDag(queued, r.dag)
    ensures Reordered(dags, queued) == queued
  {
    forall k | 0 <= k < |queued| ensures Slot(dags, queued, k) == queued[k] {
      assert queued[k] in queued;
      OfDagFits(queued, k, queued[k].dag);
      OfDagAt(queued, k);
    }
  }

  lemma {:induction false} OfDagAt(queued: seq<Run>, k: nat)
    requires k < |queued|
    ensures |OfDag(queued[..k], queued[k].dag)| < |OfDag(queued, queued[k].dag)|
    ensures OfDag(queued, queued[k].dag)[|OfDag(queued[..k], queued[k].dag)|] == queued[k]
    decreases |queued|
  {
    var n := |queued| - 1;
    if k < n {
      assert queued[..n][..k] == queued[..k];
      OfDagAt(queued[..n], k);
    }
  }

  /** Runs per DAG. */
  function RunsBy(runs: seq<Run>): map<string, nat> {
    if runs == [] then map[]
    else
      var m, d := RunsBy(runs[..|runs| - 1]), runs[|runs| - 1].dag;
      m[d := (if d in m then m[d] else 0) + 1]
  }

  lemma {:induction false} RunsByCounts(runs: seq<Run>, dag: string)
    ensures (if dag in RunsBy(runs) then RunsBy(runs)[dag] else 0) == |OfDag(runs, dag)|
    decreases |runs|
  {
    if runs != [] {
      RunsByCounts(runs[..|runs| - 1], dag);
    }
  }

  lemma RunsByNext(runs: seq<Run>, k: nat)
    requires k < |runs|
    ensures var m, d := RunsBy(runs[..k]), runs[k].dag;
            RunsBy(runs[..k + 1]) == m[d := (if d in m then m[d] else 0) + 1]
  {
    assert runs[..k + 1][..k] == runs[..k];
  }

  lemma SlotAt(dags: Dags, queued: seq<Run>, k: nat, order: seq<Run>, idx: map<string, nat>)
    requires k < |queued| && order == DrainOrder(dags, queued, queued[k].dag) && idx == RunsBy(queued[..k])
    ensures var i := if queued[k].dag in idx then idx[queued[k].dag] else 0;
            i < |order| && order[i] == Slot(dags, queued, k)
  {
    RunsByCounts(queued[..k], queued[k].dag);
    OfDagFits(queued, k, queued[k].dag);
  }

  ghost predicate Drainable(dags: Dags, queued: seq<Run>, byDag: Buckets) {
    forall r :: r in queued ==> r.dag in byDag && byDag[r.dag] == DrainOrder(dags, queued, r.dag)
  }

  lemma BucketOf(dags: Dags, queued: seq<Run>, byDag: Buckets, k: nat)
    requires k < |queued| && Drainable(dags, queued, byDag)
    ensures queued[k].dag in byDag && byDag[queued[k].dag] == DrainOrder(dags, queued, queued[k].dag)
  {
    assert queued[k] in queued;
  }

  /** The next run of the slot's DAG, and the indices after taking it. */
  method TakeNext(dags: Dags, queued: seq<Run>, byDag: Buckets, k: nat, idx: map<string, nat>)
    returns (r: Run, idx': map<string, nat>)
    requires k < |queued| && Drainable(dags, queued, byDag) && idx == RunsBy(queued[..k])
    ensures r == Slot(dags, queued, k) && idx' == RunsBy(queued[..k + 1])
  {
    var d := queued[k].dag;
    BucketOf(dags, queued, byDag, k);
    SlotAt(dags, queued, k, byDag[d], idx);
    RunsByNext(queued, k);
    var i := if d in idx then idx[d] else 0;
    r := byDag[d][i];
    idx' := idx[d := i + 1];
  }

  ghost predicate Rebuilt(dags: Dags, queued: seq<Run>, out: seq<Run>) {
    |out| <= |queued| && forall i :: 0 <= i < |out| ==> out[i] == Slot(dags, queued, i)
  }

  lemma RebuiltNext(dags: Dags, queued: seq<Run>, out: seq<Run>, r: Run)
    requires Rebuilt(dags, queued, out) && |out| < |queued| && r == Slot(dags, queued, |out|)
    ensures Rebuilt(dags, queued, out + [r])
  {
  }

  lemma RebuiltAll(dags: Dags, queued: seq<Run>, out: seq<Run>)
    requires Rebuilt(dags, queued, out) && |out| == |queued|
    ensures out == Reordered(dags, queued)
  {
  }

  method Rebuild(dags: Dags, queued: seq<Run>, byDag: Buckets) returns (out: seq<Run>)
    requires Drainable(dags, queued, byDag)
    ensures out == Reordered(dags, queued)
  {
    var idx: map<string, nat> := map[];
    out := [];
    assert queued[..0] == [];
    for k := 0 to |queued|
      invariant |out| == k && Rebuilt(dags, queued, out)
      invariant idx == RunsBy(queued[..k])
    {
      var r: Run;
      r, idx := TakeNext(dags, queued, byDag, k, idx);
      RebuiltNext(dags, queued, out, r);
      out := out + [r];
    }
    RebuiltAll(dags, queued, out);
  }
}
