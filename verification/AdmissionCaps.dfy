/** Exactly which harvests keep max_active_tasks (admitReady in internal/scheduler/scheduler.go).

    Each harvested run carries its own snapshot of its DAG's max_active_tasks. The pass counts the DAG's
    budget from the first snapshot it meets that has one, and tasks without one do not draw on it.
    `Ceiling` is what that lets the DAG's count reach; every dispatch stays within its own snapshot, for
    all rows, budgets and interference, if and only if no snapshot is below the ceiling it meets. */
module AdmissionCaps {
  import opened Admission
  import opened Options
  import opened TriggerRules

  /** The first cap among the DAG's candidates whose worker group is up, plus one for each later such
      candidate without a cap. */
  function Ceiling(live: set<string>, sorted: seq<Candidate>, dag: string, n: nat): Option<nat>
    requires n <= |sorted|
  {
    if n == 0 then None
    else
      var before, c := Ceiling(live, sorted, dag, n - 1), sorted[n - 1];
      if c.dag != dag || !LiveGroup(live, c) then before
      else if c.dagMax > 0 then (if before.None? then Some(c.dagMax) else before)
      else if before.None? then None
      else Some(before.value + 1)
  }

  predicate UnderCeiling(live: set<string>, sorted: seq<Candidate>, j: nat)
    requires j < |sorted|
  {
    var c, ceiling := sorted[j], Ceiling(live, sorted, sorted[j].dag, j);
    LiveGroup(live, c) && c.dagMax > 0 && ceiling.Some? ==> ceiling.value <= c.dagMax
  }

  /** What a caller can check: no snapshot is smaller than the ceiling it meets. */
  ghost predicate CompatibleCaps(live: set<string>, sorted: seq<Candidate>) {
    forall j :: 0 <= j < |sorted| ==> UnderCeiling(live, sorted, j)
  }

  /** What max_active_tasks promises of one dispatch. */
  ghost predicate KeepsCap(limits: Limits, sorted: seq<Candidate>, meanwhile: Interference, rows: Rows, n: nat)
    requires n < |sorted| == |meanwhile|
  {
    Verdict(limits, sorted, meanwhile, rows, n).Dispatched? && sorted[n].dagMax > 0 ==>
      InDag(Admit(limits, sorted, meanwhile, rows, n + 1).rows, sorted[n].dag) <= sorted[n].dagMax
  }

  ghost predicate CapsKept(live: set<string>, sorted: seq<Candidate>) {
    forall limits: Limits, meanwhile, rows, n: nat ::
      n < |sorted| == |meanwhile| && limits.liveGroups == live && Fits(rows, sorted) ==>
        KeepsCap(limits, sorted, meanwhile, rows, n)
  }

  // ---- compatible caps are kept ----

  ghost predicate BelowCeiling(limits: Limits, sorted: seq<Candidate>, n: nat, l: Ledger, dag: string)
    requires n <= |sorted|
  {
    match Ceiling(limits.liveGroups, sorted, dag, n)
    case None => dag !in l.dags
    case Some(b) => l.global <= 0 || (dag in l.dags && InDag(l.rows, dag) + l.dags[dag] <= b)
  }

  lemma CeilingConsider(limits: Limits, sorted: seq<Candidate>, n: nat, l: Ledger, dag: string)
    requires n < |sorted| && Fits(l.rows, sorted) && BelowCeiling(limits, sorted, n, l, dag)
    ensures BelowCeiling(limits, sorted, n + 1, Consider(limits, sorted[n], l), dag)
  {
    var c := sorted[n];
    assert c in sorted;
    if Decide(limits, c, l).Dispatched? {
      TakingCounts(l.rows, c.key, c.pool, dag);
    }
  }

  lemma FitsMeanwhile(rows: Rows, sorted: seq<Candidate>, changes: map<Key, TaskState>)
    requires Fits(rows, sorted)
    ensures Fits(Meanwhile(rows, changes), sorted)
  {
  }

  lemma FitsConsider(limits: Limits, sorted: seq<Candidate>, c: Candidate, l: Ledger)
    requires Fits(l.rows, sorted)
    ensures Fits(Consider(limits, c, l).rows, sorted)
  {
  }

  lemma {:induction false} CeilingHolds(limits: Limits, sorted: seq<Candidate>, meanwhile: Interference, rows: Rows,
      n: nat, dag: string)
    requires n <= |sorted| == |meanwhile| && Fits(rows, sorted)
    ensures Fits(Admit(limits, sorted, meanwhile, rows, n).rows, sorted)
    ensures BelowCeiling(limits, sorted, n, Admit(limits, sorted, meanwhile, rows, n), dag)
    decreases n
  {
    if n > 0 {
      CeilingHolds(limits, sorted, meanwhile, rows, n - 1, dag);
      var l := Admit(limits, sorted, meanwhile, rows, n - 1);
      FitsMeanwhile(l.rows, sorted, meanwhile[n - 1]);
      InterferenceFrees(l.rows, meanwhile[n - 1], "", dag);
      var met := Turn(limits, sorted, meanwhile, rows, n - 1);
      CeilingConsider(limits, sorted, n - 1, met, dag);
      FitsConsider(limits, sorted, sorted[n - 1], met);
    }
  }

  lemma DispatchUnderCeiling(limits: Limits, sorted: seq<Candidate>, n: nat, l: Ledger)
    requires n < |sorted| && Fits(l.rows, sorted) && BelowCeiling(limits, sorted, n, l, sorted[n].dag)
    requires Decide(limits, sorted[n], l).Dispatched? && sorted[n].dagMax > 0
    requires UnderCeiling(limits.liveGroups, sorted, n)
    ensures InDag(Consider(limits, sorted[n], l).rows, sorted[n].dag) <= sorted[n].dagMax
  {
    var c := sorted[n];
    assert c in sorted;
    TakingCounts(l.rows, c.key, c.pool, c.dag);
  }

  lemma CompatibleCapsAreKept(live: set<string>, sorted: seq<Candidate>)
    requires CompatibleCaps(live, sorted)
    ensures CapsKept(live, sorted)
  {
    forall limits: Limits, meanwhile, rows, n: nat |
      n < |sorted| == |meanwhile| && limits.liveGroups == live && Fits(rows, sorted)
      ensures KeepsCap(limits, sorted, meanwhile, rows, n)
    {
      if Verdict(limits, sorted, meanwhile, rows, n).Dispatched? && sorted[n].dagMax > 0 {
        var l := Admit(limits, sorted, meanwhile, rows, n);
        CeilingHolds(limits, sorted, meanwhile, rows, n, sorted[n].dag);
        FitsMeanwhile(l.rows, sorted, meanwhile[n]);
        InterferenceFrees(l.rows, meanwhile[n], "", sorted[n].dag);
        DispatchUnderCeiling(limits, sorted, n, Turn(limits, sorted, meanwhile, rows, n));
      }
    }
  }

  // ---- incompatible caps are overrun ----

  /** The harvest has each task instance once. */
  ghost predicate DistinctKeys(sorted: seq<Candidate>) {
    forall i, j :: 0 <= i < j < |sorted| ==> sorted[i].key != sorted[j].key
  }

  /** The parser's bound on max_active_tasks. */
  const MAX_TASKS := 1000

  ghost predicate ParsedCaps(sorted: seq<Candidate>) {
    forall i :: 0 <= i < |sorted| ==> sorted[i].dagMax <= MAX_TASKS
  }

  /** Up to candidate `j`, a candidate without a cap that is scheduled in the overrun: just enough of them to
      take the ceiling past j's cap. */
  predicate Chosen(live: set<string>, sorted: seq<Candidate>, j: nat, n: nat)
    requires n < |sorted| && j < |sorted|
  {
    var c, ceiling := sorted[n], Ceiling(live, sorted, sorted[j].dag, n);
    n < j && c.dag == sorted[j].dag && LiveGroup(live, c) && c.dagMax == 0 &&
    ceiling.Some? && ceiling.value <= sorted[j].dagMax
  }

  function Picked(live: set<string>, sorted: seq<Candidate>, j: nat, n: nat): nat
    requires n <= |sorted| && j < |sorted|
  {
    if n == 0 then 0 else Picked(live, sorted, j, n - 1) + if Chosen(live, sorted, j, n - 1) then 1 else 0
  }

  function Larger(a: nat, b: nat): nat {
    if a < b then b else a
  }

  function Smaller(a: nat, b: nat): nat {
    if a < b then a else b
  }

  /** The chosen candidates follow the ceiling from the first cap until it is past j's. */
  ghost predicate PickedFollows(live: set<string>, sorted: seq<Candidate>, j: nat, n: nat, first: nat)
    requires n <= |sorted| && j < |sorted|
  {
    match Ceiling(live, sorted, sorted[j].dag, n)
    case None => Picked(live, sorted, j, n) == 0
    case Some(b) => b >= first && Picked(live, sorted, j, n) + first == Smaller(b, Larger(first, sorted[j].dagMax + 1))
  }

  /** `first` is the DAG's first cap, if it has been met. */
  ghost predicate FirstIs(live: set<string>, sorted: seq<Candidate>, dag: string, n: nat, first: nat)
    requires n <= |sorted|
  {
    var f := FirstCap(live, sorted, dag, n);
    first >= 1 && (f.Some? ==> f.value == first)
  }

  lemma {:induction false} PickedAlong(live: set<string>, sorted: seq<Candidate>, j: nat, n: nat, first: nat)
    requires n <= j < |sorted| && FirstIs(live, sorted, sorted[j].dag, j, first)
    ensures PickedFollows(live, sorted, j, n, first)
    ensures Ceiling(live, sorted, sorted[j].dag, n).Some? <==> FirstCap(live, sorted, sorted[j].dag, n).Some?
    decreases n
  {
    if n > 0 {
      PickedAlong(live, sorted, j, n - 1, first);
      if FirstCap(live, sorted, sorted[j].dag, n).Some? {
        FirstCapStays(live, sorted, sorted[j].dag, n, j);
      }
    }
  }

  lemma {:induction false} FirstCapStays(live: set<string>, sorted: seq<Candidate>, dag: string, m: nat, n: nat)
    requires m <= n <= |sorted| && FirstCap(live, sorted, dag, m).Some?
    ensures FirstCap(live, sorted, dag, n) == FirstCap(live, sorted, dag, m)
    decreases n
  {
    if m < n {
      FirstCapStays(live, sorted, dag, m, n - 1);
    }
  }

  // ---- the rows of an overrun ----

  /** A candidate `j` whose cap is below the ceiling it meets; `first` is its DAG's first cap. */
  datatype Scene = Scene(live: set<string>, sorted: seq<Candidate>, j: nat, first: nat)

  ghost predicate Overrun(sc: Scene) {
    && sc.j < |sc.sorted| && DistinctKeys(sc.sorted) && ParsedCaps(sc.sorted)
    && !UnderCeiling(sc.live, sc.sorted, sc.j)
    && FirstIs(sc.live, sc.sorted, sc.sorted[sc.j].dag, sc.j, sc.first)
  }

  ghost predicate Seated(sc: Scene, m: nat)
    requires Overrun(sc)
  {
    m < |sc.sorted| && (m == sc.j || Chosen(sc.live, sc.sorted, sc.j, m))
  }

  function Waiting(c: Candidate): Inst {
    Inst(Scheduled, c.pool, c.dag, false)
  }

  function Tag(k: nat): string {
    seq(k, i => 'x')
  }

  /** `k` running tasks of the DAG, in a pool and a run of their own. */
  function Others(run: string, pool: string, dag: string, k: nat): Rows {
    if k == 0 then map[]
    else Others(run, pool, dag, k - 1)[Key(run, Tag(k)) := Inst(Running, pool, dag, false)]
  }

  lemma {:induction false} OthersKeys(run: string, pool: string, dag: string, k: nat)
    ensures forall key :: key in Others(run, pool, dag, k) ==> key.run == run && |key.task| <= k
    ensures forall key :: key in Others(run, pool, dag, k) ==>
            Others(run, pool, dag, k)[key] == Inst(Running, pool, dag, false)
    decreases k
  {
    if k > 0 {
      OthersKeys(run, pool, dag, k - 1);
    }
  }

  lemma NoUsers(rows: Rows, dag: string)
    requires forall x :: x in rows ==> !Active(rows[x]) || rows[x].dag != dag
    ensures InDag(rows, dag) == 0
  {
    assert (set x | x in rows && Active(rows[x]) && rows[x].dag == dag) == {};
  }

  lemma OneMoreUser(rows: Rows, key: Key, i: Inst)
    requires key !in rows && Active(i)
    ensures InDag(rows[key := i], i.dag) == InDag(rows, i.dag) + 1
  {
    var more := rows[key := i];
    assert (set x | x in more && Active(more[x]) && more[x].dag == i.dag)
        == (set x | x in rows && Active(rows[x]) && rows[x].dag == i.dag) + {key};
  }

  lemma {:induction false} OthersCount(run: string, pool: string, dag: string, k: nat)
    ensures InDag(Others(run, pool, dag, k), dag) == k
    decreases k
  {
    if k == 0 {
      NoUsers(Others(run, pool, dag, 0), dag);
    } else {
      OthersCount(run, pool, dag, k - 1);
      OthersKeys(run, pool, dag, k - 1);
      OneMoreUser(Others(run, pool, dag, k - 1), Key(run, Tag(k)), Inst(Running, pool, dag, false));
    }
  }

  lemma OthersInPool(run: string, pool: string, dag: string, k: nat, p: string)
    requires p != pool
    ensures InPool(Others(run, pool, dag, k), p) == 0
  {
    OthersKeys(run, pool, dag, k);
    var rows := Others(run, pool, dag, k);
    assert (set x | x in rows && Active(rows[x]) && rows[x].pool == p) == {};
  }

  lemma SeatCounts(rows: Rows, key: Key, c: Candidate, pool: string, dag: string)
    requires key !in rows
    ensures InPool(rows[key := Waiting(c)], pool) == InPool(rows, pool)
    ensures InDag(rows[key := Waiting(c)], dag) == InDag(rows, dag)
  {
    var more := rows[key := Waiting(c)];
    assert (set x | x in more && Active(more[x]) && more[x].pool == pool)
        == (set x | x in rows && Active(rows[x]) && rows[x].pool == pool);
    assert (set x | x in more && Active(more[x]) && more[x].dag == dag)
        == (set x | x in rows && Active(rows[x]) && rows[x].dag == dag);
  }

  /** The first `n` candidates' rows: only those seated have one. */
  ghost function Seats(sc: Scene, base: Rows, n: nat): Rows
    requires Overrun(sc) && n <= |sc.sorted|
  {
    if n == 0 then base
    else if Seated(sc, n - 1) then Seats(sc, base, n - 1)[sc.sorted[n - 1].key := Waiting(sc.sorted[n - 1])]
    else Seats(sc, base, n - 1)
  }

  ghost predicate FreshBase(sc: Scene, base: Rows) {
    forall c :: c in sc.sorted ==> c.key !in base
  }

  /** Who has a row in `rows`, of the candidates from `from` on and of all. */
  ghost predicate SeatedRows(sc: Scene, rows: Rows, from: nat)
    requires Overrun(sc)
  {
    && (forall m :: from <= m < |sc.sorted| && Seated(sc, m) ==>
          sc.sorted[m].key in rows && rows[sc.sorted[m].key] == Waiting(sc.sorted[m]))
    && (forall m :: 0 <= m < |sc.sorted| && !Seated(sc, m) ==> sc.sorted[m].key !in rows)
  }

  lemma {:induction false} SeatsHold(sc: Scene, base: Rows, n: nat)
    requires Overrun(sc) && n <= |sc.sorted| && FreshBase(sc, base)
    ensures forall m :: 0 <= m < n && Seated(sc, m) ==>
              sc.sorted[m].key in Seats(sc, base, n) && Seats(sc, base, n)[sc.sorted[m].key] == Waiting(sc.sorted[m])
    ensures forall m :: 0 <= m < |sc.sorted| && (n <= m || !Seated(sc, m)) ==> sc.sorted[m].key !in Seats(sc, base, n)
    decreases n
  {
    if n > 0 {
      SeatsHold(sc, base, n - 1);
    } else {
      assert forall m :: 0 <= m < |sc.sorted| ==> sc.sorted[m] in sc.sorted;
    }
  }

  lemma {:induction false} SeatsCount(sc: Scene, base: Rows, n: nat, pool: string, dag: string)
    requires Overrun(sc) && n <= |sc.sorted| && FreshBase(sc, base)
    ensures InPool(Seats(sc, base, n), pool) == InPool(base, pool) && InDag(Seats(sc, base, n), dag) == InDag(base, dag)
    decreases n
  {
    if n > 0 {
      SeatsCount(sc, base, n - 1, pool, dag);
      SeatsHold(sc, base, n - 1);
      if Seated(sc, n - 1) {
        SeatCounts(Seats(sc, base, n - 1), sc.sorted[n - 1].key, sc.sorted[n - 1], pool, dag);
      }
    }
  }

  lemma {:induction false} SeatsFit(sc: Scene, base: Rows, n: nat)
    requires Overrun(sc) && n <= |sc.sorted| && FreshBase(sc, base)
    ensures Fits(Seats(sc, base, n), sc.sorted)
    decreases n
  {
    SeatsHold(sc, base, n);
    forall c | c in sc.sorted && c.key in Seats(sc, base, n)
      ensures Seats(sc, base, n)[c.key].pool == c.pool && Seats(sc, base, n)[c.key].dag == c.dag
    {
      var m :| 0 <= m < |sc.sorted| && sc.sorted[m] == c;
    }
  }

  // ---- the pass over them ----

  /** The ledger of the overrun before candidate `n`: one place left for the DAG once it is counted, and room
      everywhere else. */
  ghost predicate OnCourse(sc: Scene, n: nat, l: Ledger)
    requires Overrun(sc) && n <= sc.j
  {
    var dag, picked := sc.sorted[sc.j].dag, Picked(sc.live, sc.sorted, sc.j, n);
    && SeatedRows(sc, l.rows, n) && l.global + n > |sc.sorted|
    && InDag(l.rows, dag) == sc.first - 1 + picked
    && (forall p :: p in l.pools ==> l.pools[p] >= MAX_POOL_SLOTS - picked)
    && (forall c :: c in sc.sorted ==> InPool(l.rows, c.pool) <= picked)
    && (if Ceiling(sc.live, sc.sorted, dag, n).Some? then dag in l.dags && l.dags[dag] == 1 else dag !in l.dags)
  }

  ghost predicate WideLimits(sc: Scene, limits: Limits) {
    limits.liveGroups == sc.live && forall c :: c in sc.sorted ==> PoolSlots(limits, c.pool) == MAX_POOL_SLOTS
  }

  lemma PickedIsFew(sc: Scene, n: nat)
    requires Overrun(sc) && n <= sc.j
    ensures Picked(sc.live, sc.sorted, sc.j, n) <= MAX_TASKS
    ensures Ceiling(sc.live, sc.sorted, sc.sorted[sc.j].dag, n).None? ==> Picked(sc.live, sc.sorted, sc.j, n) == 0
  {
    PickedAlong(sc.live, sc.sorted, sc.j, n, sc.first);
  }

  lemma PoolHasRoom(sc: Scene, limits: Limits, n: nat, l: Ledger, c: Candidate)
    requires Overrun(sc) && n <= sc.j && OnCourse(sc, n, l) && WideLimits(sc, limits) && c in sc.sorted
    ensures PoolLeft(limits, c, l) >= MAX_POOL_SLOTS - Picked(sc.live, sc.sorted, sc.j, n) > 0
  {
    PickedIsFew(sc, n);
  }

  lemma ChosenIsDispatched(sc: Scene, limits: Limits, n: nat, l: Ledger)
    requires Overrun(sc) && n < sc.j && OnCourse(sc, n, l) && WideLimits(sc, limits)
    requires Chosen(sc.live, sc.sorted, sc.j, n)
    ensures OnCourse(sc, n + 1, Consider(limits, sc.sorted[n], l))
  {
    var c := sc.sorted[n];
    assert c in sc.sorted && Seated(sc, n);
    PoolHasRoom(sc, limits, n, l, c);
    assert Decide(limits, c, l).Dispatched?;
    var l' := Consider(limits, c, l);
    assert l'.rows == Taken(l.rows, c.key);
    TakingCounts(l.rows, c.key, c.pool, c.dag);
    forall x | x in sc.sorted ensures InPool(l'.rows, x.pool) <= Picked(sc.live, sc.sorted, sc.j, n + 1) {
      TakingCounts(l.rows, c.key, x.pool, c.dag);
    }
    forall m | n + 1 <= m < |sc.sorted| && Seated(sc, m)
      ensures sc.sorted[m].key in l'.rows && l'.rows[sc.sorted[m].key] == Waiting(sc.sorted[m])
    {
      assert sc.sorted[m].key != c.key;
    }
  }

  lemma OthersArePassedOver(sc: Scene, limits: Limits, n: nat, l: Ledger)
    requires Overrun(sc) && n < sc.j && OnCourse(sc, n, l) && WideLimits(sc, limits)
    requires !Chosen(sc.live, sc.sorted, sc.j, n)
    ensures OnCourse(sc, n + 1, Consider(limits, sc.sorted[n], l))
  {
    var c := sc.sorted[n];
    assert c in sc.sorted && !Seated(sc, n);
    PoolHasRoom(sc, limits, n, l, c);
    var l' := Consider(limits, c, l);
    assert l'.rows == l.rows && l'.pools == l.pools && l'.global == l.global;
    PickedIsFew(sc, n);
    FirstCapFound(sc, n);
  }

  /** The DAG's first cap is `first`. */
  lemma FirstCapFound(sc: Scene, n: nat)
    requires Overrun(sc) && n < sc.j
    ensures var c, dag := sc.sorted[n], sc.sorted[sc.j].dag;
            Ceiling(sc.live, sc.sorted, dag, n).None? && c.dag == dag && c.dagMax > 0 && LiveGroup(sc.live, c) ==>
              c.dagMax == sc.first
  {
    var dag := sc.sorted[sc.j].dag;
    PickedAlong(sc.live, sc.sorted, sc.j, n, sc.first);
    if FirstCap(sc.live, sc.sorted, dag, n + 1).Some? {
      FirstCapStays(sc.live, sc.sorted, dag, n + 1, sc.j);
    }
  }

  lemma {:induction false} StaysOnCourse(sc: Scene, limits: Limits, ledgers: seq<Ledger>, n: nat)
    requires Overrun(sc) && Pass(limits, sc.sorted, ledgers) && OnCourse(sc, 0, ledgers[0]) &&
             WideLimits(sc, limits) && n <= sc.j
    ensures OnCourse(sc, n, ledgers[n])
    decreases n
  {
    if n > 0 {
      StaysOnCourse(sc, limits, ledgers, n - 1);
      if Chosen(sc.live, sc.sorted, sc.j, n - 1) {
        ChosenIsDispatched(sc, limits, n - 1, ledgers[n - 1]);
      } else {
        OthersArePassedOver(sc, limits, n - 1, ledgers[n - 1]);
      }
    }
  }

  /** Candidate `j` takes the DAG's last place by the first cap, past its own. */
  lemma LastPlaceOverruns(sc: Scene, limits: Limits, l: Ledger)
    requires Overrun(sc) && OnCourse(sc, sc.j, l) && WideLimits(sc, limits)
    ensures Decide(limits, sc.sorted[sc.j], l).Dispatched?
    ensures InDag(Consider(limits, sc.sorted[sc.j], l).rows, sc.sorted[sc.j].dag) > sc.sorted[sc.j].dagMax
  {
    var c := sc.sorted[sc.j];
    assert c in sc.sorted && Seated(sc, sc.j);
    PoolHasRoom(sc, limits, sc.j, l, c);
    PickedAlong(sc.live, sc.sorted, sc.j, sc.j, sc.first);
    TakingCounts(l.rows, c.key, c.pool, c.dag);
  }

  lemma {:induction false} FreshString(used: set<string>) returns (x: string)
    ensures forall u :: u in used ==> |u| < |x|
    decreases used
  {
    if used == {} {
      x := "";
    } else {
      var u :| u in used;
      var y := FreshString(used - {u});
      x := if |u| < |y| then y else u + "x";
      assert forall v :: v in used ==> v == u || v in used - {u};
    }
  }

  ghost function PoolsOf(sorted: seq<Candidate>): set<string> {
    set c | c in sorted :: c.pool
  }

  ghost function RunsOf(sorted: seq<Candidate>): set<string> {
    set c | c in sorted :: c.key.run
  }

  ghost function Wide(sc: Scene, inUse: nat): Limits {
    Limits(inUse + |sc.sorted| + 1, map p | p in PoolsOf(sc.sorted) :: MAX_POOL_SLOTS, sc.live)
  }

  lemma WideIsWide(sc: Scene, inUse: nat)
    ensures WideLimits(sc, Wide(sc, inUse))
  {
    forall c | c in sc.sorted ensures PoolSlots(Wide(sc, inUse), c.pool) == MAX_POOL_SLOTS {
      assert c.pool in PoolsOf(sc.sorted);
    }
  }

  /** first-1 running tasks of the DAG, none of them a candidate or in a candidate's pool. */
  lemma OverrunBase(sc: Scene) returns (base: Rows)
    requires Overrun(sc)
    ensures FreshBase(sc, base) && InDag(base, sc.sorted[sc.j].dag) == sc.first - 1
    ensures forall c :: c in sc.sorted ==> InPool(base, c.pool) == 0
  {
    var run := FreshString(RunsOf(sc.sorted));
    var pool := FreshString(PoolsOf(sc.sorted));
    var dag := sc.sorted[sc.j].dag;
    base := Others(run, pool, dag, sc.first - 1);
    OthersKeys(run, pool, dag, sc.first - 1);
    OthersCount(run, pool, dag, sc.first - 1);
    forall c | c in sc.sorted ensures c.key !in base && InPool(base, c.pool) == 0 {
      assert c.key.run in RunsOf(sc.sorted) && c.pool in PoolsOf(sc.sorted);
      OthersInPool(run, pool, dag, sc.first - 1, c.pool);
    }
  }

  /** The same with the seated candidates waiting. */
  lemma OverrunRows(sc: Scene) returns (rows: Rows)
    requires Overrun(sc)
    ensures Fits(rows, sc.sorted) && SeatedRows(sc, rows, 0)
    ensures InDag(rows, sc.sorted[sc.j].dag) == sc.first - 1
    ensures forall c :: c in sc.sorted ==> InPool(rows, c.pool) == 0
  {
    var base := OverrunBase(sc);
    var n := |sc.sorted|;
    rows := Seats(sc, base, n);
    SeatsHold(sc, base, n);
    SeatsFit(sc, base, n);
    SeatsCount(sc, base, n, "", sc.sorted[sc.j].dag);
    forall c | c in sc.sorted ensures InPool(rows, c.pool) == 0 {
      SeatsCount(sc, base, n, c.pool, "");
    }
  }

  lemma OverrunStart(sc: Scene) returns (limits: Limits, rows: Rows)
    requires Overrun(sc)
    ensures WideLimits(sc, limits) && Fits(rows, sc.sorted)
    ensures OnCourse(sc, 0, Ledger(rows, limits.maxTasks - InUse(rows), map[], map[]))
  {
    rows := OverrunRows(sc);
    limits := Wide(sc, InUse(rows));
    WideIsWide(sc, InUse(rows));
  }

  lemma OverrunHappens(sc: Scene)
    requires Overrun(sc)
    ensures !CapsKept(sc.live, sc.sorted)
  {
    var limits, rows := OverrunStart(sc);
    var meanwhile: Interference := seq(|sc.sorted|, i => map[]);
    var ledgers := PassOf(limits, sc.sorted, meanwhile, rows);
    StaysOnCourse(sc, limits, ledgers, sc.j);
    LastPlaceOverruns(sc, limits, ledgers[sc.j]);
    QuietTurn(limits, sc.sorted, meanwhile, rows, sc.j);
    assert !KeepsCap(limits, sc.sorted, meanwhile, rows, sc.j);
  }

  lemma {:induction false} CeilingHasFirst(live: set<string>, sorted: seq<Candidate>, dag: string, n: nat)
    requires n <= |sorted| && Ceiling(live, sorted, dag, n).Some?
    ensures FirstCap(live, sorted, dag, n).Some? && FirstCap(live, sorted, dag, n).value >= 1
    decreases n
  {
    if Ceiling(live, sorted, dag, n - 1).Some? {
      CeilingHasFirst(live, sorted, dag, n - 1);
    } else {
      NoCeilingNoFirst(live, sorted, dag, n - 1);
    }
  }

  lemma {:induction false} NoCeilingNoFirst(live: set<string>, sorted: seq<Candidate>, dag: string, n: nat)
    requires n <= |sorted| && Ceiling(live, sorted, dag, n).None?
    ensures FirstCap(live, sorted, dag, n).None?
    decreases n
  {
    if n > 0 {
      NoCeilingNoFirst(live, sorted, dag, n - 1);
    }
  }

  /** Whatever the rows, the budgets and the other goroutines, every dispatch of the pass stays within its own
      snapshot of max_active_tasks if and only if the snapshots are compatible. */
  lemma CapsKeptIff(live: set<string>, sorted: seq<Candidate>)
    requires DistinctKeys(sorted) && ParsedCaps(sorted)
    ensures CapsKept(live, sorted) <==> CompatibleCaps(live, sorted)
  {
    if CompatibleCaps(live, sorted) {
      CompatibleCapsAreKept(live, sorted);
    } else {
      var j :| 0 <= j < |sorted| && !UnderCeiling(live, sorted, j);
      CeilingHasFirst(live, sorted, sorted[j].dag, j);
      OverrunHappens(Scene(live, sorted, j, FirstCap(live, sorted, sorted[j].dag, j).value));
    }
  }

  lemma {:induction false} SameCapIsCeiling(live: set<string>, sorted: seq<Candidate>, dag: string, cap: nat, n: nat)
    requires n <= |sorted| && cap > 0
    requires forall c :: c in sorted && c.dag == dag ==> c.dagMax == cap
    ensures Ceiling(live, sorted, dag, n).Some? ==> Ceiling(live, sorted, dag, n).value == cap
    decreases n
  {
    if n > 0 {
      SameCapIsCeiling(live, sorted, dag, cap, n - 1);
      assert sorted[n - 1] in sorted;
    }
  }

  /** When the runs of each DAG all carry the same snapshot, as without an edit in between, it is kept. */
  lemma SameCapsAreKept(live: set<string>, sorted: seq<Candidate>)
    requires forall c, d :: c in sorted && d in sorted && c.dag == d.dag ==> c.dagMax == d.dagMax
    ensures CapsKept(live, sorted)
  {
    forall j | 0 <= j < |sorted| ensures UnderCeiling(live, sorted, j) {
      var c := sorted[j];
      assert c in sorted;
      if c.dagMax > 0 {
        SameCapIsCeiling(live, sorted, c.dag, c.dagMax, j);
      }
    }
    CompatibleCapsAreKept(live, sorted);
  }
}
