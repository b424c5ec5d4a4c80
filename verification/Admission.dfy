/** Launching a tick's harvest under the pool, DAG and global budgets (admitReady in
    internal/scheduler/scheduler.go).

    `Consider` is one turn of the source's loop and `Admit` the whole pass; the loop is proved equal to
    it. Between turns, goroutines of other attempts may finish or give back what they hold: whatever
    they do is the parameter `meanwhile`. */
module Admission {
  import opened Options
  import opened Ordering
  import opened StableSort
  import opened TriggerRules

  /** A task instance's identity: run and task. */
  datatype Key = Key(run: string, task: string)

  datatype Candidate = Candidate(
    key: Key, dag: string, pool: string, group: string, runPriority: int, taskPriority: int, date: int, dagMax: nat)

  /** Urgent run first, then urgent task, then older date, then the names. */
  predicate Before(a: Candidate, b: Candidate) {
    if a.runPriority != b.runPriority then a.runPriority > b.runPriority
    else if a.taskPriority != b.taskPriority then a.taskPriority > b.taskPriority
    else if a.date != b.date then a.date < b.date
    else if a.key.run != b.key.run then StringLess(a.key.run, b.key.run)
    else StringLess(a.key.task, b.key.task)
  }

  lemma BeforeIsStrictWeak()
    ensures StrictWeak(Before)
  {
    forall a, b | Before(a, b) ensures !Before(b, a) {
      StringLessAsymmetric(a.key.run, b.key.run);
      StringLessAsymmetric(a.key.task, b.key.task);
    }
    forall a, b, c | !Before(a, b) && !Before(b, c) ensures !Before(a, c) {
      NotBeforeTransitive(a, b, c);
    }
  }

  lemma NotBeforeTransitive(a: Candidate, b: Candidate, c: Candidate)
    requires !Before(a, b) && !Before(b, c)
    ensures !Before(a, c)
  {
    if !StringLess(a.key.run, b.key.run) && !StringLess(b.key.run, c.key.run) {
      NotLessTransitive(a.key.run, b.key.run, c.key.run);
      StringLessTotal(a.key.run, b.key.run);
      StringLessTotal(b.key.run, c.key.run);
      StringLessTotal(a.key.run, c.key.run);
      if a.key.run == c.key.run {
        StringLessAsymmetric(a.key.run, b.key.run);
      }
    }
    if !StringLess(a.key.task, b.key.task) && !StringLess(b.key.task, c.key.task) {
      NotLessTransitive(a.key.task, b.key.task, c.key.task);
    }
  }

  /** The sorted harvest: of two tasks in it the first belongs to the run of higher priority, or on a tie is
      itself of higher priority, or on a tie belongs to the older period. */
  lemma HarvestByPriority(ready: seq<Candidate>, i: nat, j: nat)
    requires i < j < |ready|
    ensures var a, b := Sort(ready, Before)[i], Sort(ready, Before)[j];
            && a.runPriority >= b.runPriority
            && (a.runPriority == b.runPriority ==> a.taskPriority >= b.taskPriority)
            && (a.runPriority == b.runPriority && a.taskPriority == b.taskPriority ==> a.date <= b.date)
  {
    HarvestIsSorted(ready, i, j);
  }

  lemma HarvestIsSorted(ready: seq<Candidate>, i: nat, j: nat)
    requires i < j < |ready|
    ensures !Before(Sort(ready, Before)[j], Sort(ready, Before)[i])
  {
    BeforeIsStrictWeak();
    SortIsSorted(ready, Before);
  }

  // ---- the rows and what they use ----

  /** `subdag` marks rows whose executor_ref names a child run; they use no slot. */
  datatype Inst = Inst(state: TaskState, pool: string, dag: string, subdag: bool)

  type Rows = map<Key, Inst>

  predicate Active(i: Inst) {
    (i.state.Queued? || i.state.Running?) && !i.subdag
  }

  /** CountActiveTaskInstances, CountRunningInPool and CountActiveTasksForDag. */
  function InUse(rows: Rows): nat {
    |set k | k in rows && Active(rows[k])|
  }

  function InPool(rows: Rows, pool: string): nat {
    |set k | k in rows && Active(rows[k]) && rows[k].pool == pool|
  }

  function InDag(rows: Rows, dag: string): nat {
    |set k | k in rows && Active(rows[k]) && rows[k].dag == dag|
  }

  const DEFAULT_POOL_SLOTS := 16
  const MAX_POOL_SLOTS := 1024

  datatype Limits = Limits(maxTasks: int, pools: map<string, int>, liveGroups: set<string>)

  /** At least one slot and at most 1024, 16 for a pool that is not configured; a setting in range is taken as is. */
  function PoolSlots(limits: Limits, pool: string): (slots: int)
    ensures 1 <= slots <= 1024
    ensures pool in limits.pools && 1 <= limits.pools[pool] <= 1024 ==> slots == limits.pools[pool]
    ensures pool !in limits.pools ==> slots == 16
  {
    if pool !in limits.pools then DEFAULT_POOL_SLOTS
    else if limits.pools[pool] < 1 then 1
    else if limits.pools[pool] > MAX_POOL_SLOTS then MAX_POOL_SLOTS
    else limits.pools[pool]
  }

  // ---- one pass ----

  datatype Decision = Dispatched | GlobalSpent | GroupDown | DagSpent | PoolSpent | NotScheduled

  datatype Ledger = Ledger(rows: Rows, global: int, pools: map<string, int>, dags: map<string, int>)

  /** What other goroutines can do to rows that hold an attempt. */
  function Meanwhile(rows: Rows, changes: map<Key, TaskState>): Rows {
    map k | k in rows :: if k in changes && Active(rows[k]) then rows[k].(state := changes[k]) else rows[k]
  }

  function DagLeft(c: Candidate, l: Ledger): int {
    if c.dag in l.dags then l.dags[c.dag] else c.dagMax - InDag(l.rows, c.dag)
  }

  function PoolLeft(limits: Limits, c: Candidate, l: Ledger): int {
    if c.pool in l.pools then l.pools[c.pool] else PoolSlots(limits, c.pool) - InPool(l.rows, c.pool)
  }

  function Decide(limits: Limits, c: Candidate, l: Ledger): Decision {
    if l.global <= 0 then GlobalSpent
    else if c.group != "" && c.group !in limits.liveGroups then GroupDown
    else if c.dagMax > 0 && DagLeft(c, l) <= 0 then DagSpent
    else if PoolLeft(limits, c, l) <= 0 then PoolSpent
    else if c.key !in l.rows || !l.rows[c.key].state.Scheduled? then NotScheduled
    else Dispatched
  }

  function Consider(limits: Limits, c: Candidate, l: Ledger): Ledger {
    var d := Decide(limits, c, l);
    if d.GlobalSpent? || d.GroupDown? then l
    else
      var counted := if c.dagMax > 0 then l.dags[c.dag := DagLeft(c, l)] else l.dags;
      match d
      case DagSpent => l.(dags := counted)
      case PoolSpent => l.(dags := counted, pools := l.pools[c.pool := PoolLeft(limits, c, l)])
      case NotScheduled => l.(dags := counted)
      case Dispatched =>
        Ledger(l.rows[c.key := l.rows[c.key].(state := Queued, subdag := false)], l.global - 1,
               l.pools[c.pool := PoolLeft(limits, c, l) - 1],
               if c.dagMax > 0 then l.dags[c.dag := DagLeft(c, l) - 1] else l.dags)
  }

  type Interference = seq<map<Key, TaskState>>

  /** The ledger after the first `n` candidates of the sorted harvest. */
  function Admit(limits: Limits, sorted: seq<Candidate>, meanwhile: Interference, rows: Rows, n: nat): Ledger
    requires n <= |sorted| == |meanwhile|
    decreases n, 0
  {
    if n == 0 then Ledger(rows, limits.maxTasks - InUse(rows), map[], map[])
    else Consider(limits, sorted[n - 1], Turn(limits, sorted, meanwhile, rows, n - 1))
  }

  /** The ledger candidate `n` meets. */
  function Turn(limits: Limits, sorted: seq<Candidate>, meanwhile: Interference, rows: Rows, n: nat): Ledger
    requires n < |sorted| == |meanwhile|
    decreases n, 1
  {
    var l := Admit(limits, sorted, meanwhile, rows, n);
    l.(rows := Meanwhile(l.rows, meanwhile[n]))
  }

  function Verdict(limits: Limits, sorted: seq<Candidate>, meanwhile: Interference, rows: Rows, n: nat): Decision
    requires n < |sorted| == |meanwhile|
  {
    Decide(limits, sorted[n], Turn(limits, sorted, meanwhile, rows, n))
  }

  /** The task instances of all runs. */
  class TaskInstances {
    var rows: Rows

    constructor (rows: Rows)
      ensures this.rows == rows
    {
      this.rows := rows;
    }

    /** Other goroutines' writes between two turns. */
    method Interfere(changes: map<Key, TaskState>)
      modifies this
      ensures rows == Meanwhile(old(rows), changes)
    {
      rows := map k | k in rows :: if k in changes && Active(rows[k]) then rows[k].(state := changes[k]) else rows[k];
    }

    /** The body of the loop, for one candidate. */
    method ConsiderNext(limits: Limits, c: Candidate, l: Ledger) returns (l': Ledger, d: Decision)
      requires l.rows == rows && l.global > 0
      modifies this
      ensures d == Decide(limits, c, l) && l' == Consider(limits, c, l) && rows == l'.rows
    {
      if c.group != "" && c.group !in limits.liveGroups {
        return l, GroupDown;
      }
      l' := l;
      if c.dagMax > 0 {
        var rem := if c.dag in l.dags then l.dags[c.dag] else c.dagMax - InDag(rows, c.dag);
        l' := l'.(dags := l'.dags[c.dag := rem]);
        if rem <= 0 {
          return l', DagSpent;
        }
      }
      var left := if c.pool in l.pools then l.pools[c.pool] else PoolSlots(limits, c.pool) - InPool(rows, c.pool);
      if left <= 0 {
        return l'.(pools := l'.pools[c.pool := left]), PoolSpent;
      }
      if c.key !in rows || !rows[c.key].state.Scheduled? {
        return l', NotScheduled;
      }
      rows := rows[c.key := rows[c.key].(state := Queued, subdag := false)];
      l' := l'.(rows := rows, pools := l'.pools[c.pool := left - 1], global := l'.global - 1);
      if c.dagMax > 0 {
        assert l'.dags[c.dag := l'.dags[c.dag] - 1] == l.dags[c.dag := l'.dags[c.dag] - 1];
        l' := l'.(dags := l'.dags[c.dag := l'.dags[c.dag] - 1]);
      }
      d := Dispatched;
    }

    /** admitReady: considers the first |log| candidates of the sorted harvest and stops early only when the
        global budget is spent. */
    method AdmitReady(limits: Limits, ready: seq<Candidate>, meanwhile: Interference)
      returns (sorted: seq<Candidate>, log: seq<Decision>)
      requires |meanwhile| == |ready|
      modifies this
      ensures sorted == Sort(ready, Before) && |log| <= |sorted|
      ensures rows == Admit(limits, sorted, meanwhile, old(rows), |log|).rows
      ensures forall i :: 0 <= i < |log| ==> log[i] == Verdict(limits, sorted, meanwhile, old(rows), i)
      ensures |log| < |sorted| ==> Admit(limits, sorted, meanwhile, old(rows), |log|).global <= 0
    {
      sorted := Sort(ready, Before);
      log := [];
      ghost var start := rows;
      var ledger := Ledger(rows, limits.maxTasks - InUse(rows), map[], map[]);
      for n := 0 to |sorted|
        invariant |log| == n && ledger.rows == rows && ledger == Admit(limits, sorted, meanwhile, start, n)
        invariant LogOf(limits, sorted, meanwhile, start, log)
      {
        if ledger.global <= 0 {
          return;
        }
        Interfere(meanwhile[n]);
        ledger := ledger.(rows := rows);
        var d: Decision;
        ledger, d := ConsiderNext(limits, sorted[n], ledger);
        LogNext(limits, sorted, meanwhile, start, log, ledger, d);
        log := log + [d];
      }
    }
  }

  ghost predicate LogOf(limits: Limits, sorted: seq<Candidate>, meanwhile: Interference, rows: Rows,
                        log: seq<Decision>)
  {
    |log| <= |sorted| == |meanwhile| &&
    forall i :: 0 <= i < |log| ==> log[i] == Verdict(limits, sorted, meanwhile, rows, i)
  }

  lemma LogNext(limits: Limits, sorted: seq<Candidate>, meanwhile: Interference, rows: Rows, log: seq<Decision>,
      l: Ledger, d: Decision)
    requires LogOf(limits, sorted, meanwhile, rows, log) && |log| < |sorted|
    requires var met := Turn(limits, sorted, meanwhile, rows, |log|);
             d == Decide(limits, sorted[|log|], met) && l == Consider(limits, sorted[|log|], met)
    ensures LogOf(limits, sorted, meanwhile, rows, log + [d])
    ensures l == Admit(limits, sorted, meanwhile, rows, |log| + 1)
  {
  }

  // ---- counting ----

  ghost function Users(rows: Rows, which: Inst -> bool): set<Key> {
    set k | k in rows && Active(rows[k]) && which(rows[k])
  }

  lemma UsersAre(rows: Rows, pool: string, dag: string)
    ensures InUse(rows) == |Users(rows, i => true)|
    ensures InPool(rows, pool) == |Users(rows, (i: Inst) => i.pool == pool)|
    ensures InDag(rows, dag) == |Users(rows, (i: Inst) => i.dag == dag)|
  {
    assert Users(rows, i => true) == set k | k in rows && Active(rows[k]);
    assert Users(rows, (i: Inst) => i.pool == pool) == set k | k in rows && Active(rows[k]) && rows[k].pool == pool;
    assert Users(rows, (i: Inst) => i.dag == dag) == set k | k in rows && Active(rows[k]) && rows[k].dag == dag;
  }

  lemma OneUser(rows: Rows, k: Key, which: Inst -> bool)
    requires k in rows
    ensures |Users(rows, which)| == |Users(rows - {k}, which)| + if Active(rows[k]) && which(rows[k]) then 1 else 0
  {
    if Active(rows[k]) && which(rows[k]) {
      assert Users(rows, which) == Users(rows - {k}, which) + {k};
    } else {
      assert Users(rows, which) == Users(rows - {k}, which);
    }
  }

  /** A queued or running task takes a slot of its pool, of its DAG and of the whole scheduler, unless it stands
      for a child run; any other takes none. */
  lemma UsesOneSlot(rows: Rows, k: Key, pool: string, dag: string)
    requires k in rows
    ensures var uses := rows[k].state in {Queued, Running} && !rows[k].subdag;
            && InUse(rows) == InUse(rows - {k}) + (if uses then 1 else 0)
            && InPool(rows, pool) == InPool(rows - {k}, pool) + (if uses && rows[k].pool == pool then 1 else 0)
            && InDag(rows, dag) == InDag(rows - {k}, dag) + (if uses && rows[k].dag == dag then 1 else 0)
  {
    UsersAre(rows, pool, dag);
    UsersAre(rows - {k}, pool, dag);
    OneUser(rows, k, i => true);
    OneUser(rows, k, (i: Inst) => i.pool == pool);
    OneUser(rows, k, (i: Inst) => i.dag == dag);
  }

  function Taken(rows: Rows, k: Key): Rows
    requires k in rows
  {
    rows[k := rows[k].(state := Queued, subdag := false)]
  }

  lemma TakingAddsUser(rows: Rows, k: Key, which: Inst -> bool)
    requires k in rows && rows[k].state.Scheduled?
    requires which(Taken(rows, k)[k]) == which(rows[k])
    ensures |Users(Taken(rows, k), which)| == |Users(rows, which)| + if which(rows[k]) then 1 else 0
  {
    if which(rows[k]) {
      assert Users(Taken(rows, k), which) == Users(rows, which) + {k};
    } else {
      assert Users(Taken(rows, k), which) == Users(rows, which);
    }
  }

  lemma TakingCounts(rows: Rows, k: Key, pool: string, dag: string)
    requires k in rows && rows[k].state.Scheduled?
    ensures InUse(Taken(rows, k)) == InUse(rows) + 1
    ensures InPool(Taken(rows, k), pool) == InPool(rows, pool) + if rows[k].pool == pool then 1 else 0
    ensures InDag(Taken(rows, k), dag) == InDag(rows, dag) + if rows[k].dag == dag then 1 else 0
  {
    UsersAre(rows, pool, dag);
    UsersAre(Taken(rows, k), pool, dag);
    TakingAddsUser(rows, k, i => true);
    TakingAddsUser(rows, k, (i: Inst) => i.pool == pool);
    TakingAddsUser(rows, k, (i: Inst) => i.dag == dag);
  }

  lemma {:induction false} SubsetSize(a: set<Key>, b: set<Key>)
    requires a <= b
    ensures |a| <= |b|
    decreases a
  {
    if k :| k in a {
      SubsetSize(a - {k}, b - {k});
    }
  }

  lemma InterferenceFrees(rows: Rows, changes: map<Key, TaskState>, pool: string, dag: string)
    ensures InUse(Meanwhile(rows, changes)) <= InUse(rows)
    ensures InPool(Meanwhile(rows, changes), pool) <= InPool(rows, pool)
    ensures InDag(Meanwhile(rows, changes), dag) <= InDag(rows, dag)
  {
    var after := Meanwhile(rows, changes);
    SubsetSize(set k | k in after && Active(after[k]), set k | k in rows && Active(rows[k]));
    SubsetSize(set k | k in after && Active(after[k]) && after[k].pool == pool,
               set k | k in rows && Active(rows[k]) && rows[k].pool == pool);
    SubsetSize(set k | k in after && Active(after[k]) && after[k].dag == dag,
               set k | k in rows && Active(rows[k]) && rows[k].dag == dag);
  }

  // ---- safety ----

  /** Candidates know their rows' pool and DAG. */
  ghost predicate Fits(rows: Rows, sorted: seq<Candidate>) {
    forall c :: c in sorted && c.key in rows ==> rows[c.key].pool == c.pool && rows[c.key].dag == c.dag
  }

  ghost predicate PoolsWithin(limits: Limits, l: Ledger) {
    forall p :: p in l.pools ==> InPool(l.rows, p) + l.pools[p] <= PoolSlots(limits, p)
  }

  ghost predicate Within(limits: Limits, sorted: seq<Candidate>, l: Ledger) {
    Fits(l.rows, sorted) && InUse(l.rows) + l.global <= limits.maxTasks && PoolsWithin(limits, l)
  }

  lemma WithinMeanwhile(limits: Limits, sorted: seq<Candidate>, l: Ledger, changes: map<Key, TaskState>)
    requires Within(limits, sorted, l)
    ensures Within(limits, sorted, l.(rows := Meanwhile(l.rows, changes)))
  {
    forall p ensures InPool(Meanwhile(l.rows, changes), p) <= InPool(l.rows, p) {
      InterferenceFrees(l.rows, changes, p, "");
    }
    InterferenceFrees(l.rows, changes, "", "");
  }

  lemma WithinConsider(limits: Limits, sorted: seq<Candidate>, c: Candidate, l: Ledger)
    requires Within(limits, sorted, l) && c in sorted
    ensures Within(limits, sorted, Consider(limits, c, l))
  {
    var l' := Consider(limits, c, l);
    if Decide(limits, c, l).Dispatched? {
      TakingCounts(l.rows, c.key, c.pool, c.dag);
      forall p | p in l'.pools ensures InPool(l'.rows, p) + l'.pools[p] <= PoolSlots(limits, p) {
        TakingCounts(l.rows, c.key, p, c.dag);
      }
    }
  }

  lemma {:induction false} WithinThroughout(limits: Limits, sorted: seq<Candidate>, meanwhile: Interference,
      rows: Rows, n: nat)
    requires n <= |sorted| == |meanwhile| && Fits(rows, sorted)
    ensures Within(limits, sorted, Admit(limits, sorted, meanwhile, rows, n))
    decreases n
  {
    if n > 0 {
      WithinThroughout(limits, sorted, meanwhile, rows, n - 1);
      WithinMeanwhile(limits, sorted, Admit(limits, sorted, meanwhile, rows, n - 1), meanwhile[n - 1]);
      WithinConsider(limits, sorted, sorted[n - 1], Turn(limits, sorted, meanwhile, rows, n - 1));
    }
  }

  /** No dispatch takes the global count or its pool past the limit, whatever other goroutines do between
      the turns. Its DAG's limit is the subject of module AdmissionCaps. */
  lemma DispatchIsSafe(limits: Limits, sorted: seq<Candidate>, meanwhile: Interference, rows: Rows, n: nat)
    requires n < |sorted| == |meanwhile| && Fits(rows, sorted)
    requires Verdict(limits, sorted, meanwhile, rows, n).Dispatched?
    ensures var after, c := Admit(limits, sorted, meanwhile, rows, n + 1).rows, sorted[n];
            && c.key in after && after[c.key].state.Queued?
            && InUse(after) <= limits.maxTasks
            && InPool(after, c.pool) <= PoolSlots(limits, c.pool)
  {
    WithinThroughout(limits, sorted, meanwhile, rows, n + 1);
    var c := sorted[n];
    assert c in sorted;
  }

  // ---- no inversion, nothing idle ----

  /** A budget that turned a candidate away stays spent for the rest of the pass. */
  ghost predicate SpentFor(c: Candidate, d: Decision, l: Ledger) {
    && (d.GlobalSpent? ==> l.global <= 0)
    && (d.PoolSpent? ==> c.pool in l.pools && l.pools[c.pool] <= 0)
    && (d.DagSpent? ==> c.dagMax > 0 && c.dag in l.dags && l.dags[c.dag] <= 0)
  }

  lemma {:induction false} SpentStays(limits: Limits, sorted: seq<Candidate>, meanwhile: Interference, rows: Rows,
      i: nat, n: nat)
    requires i < n <= |sorted| == |meanwhile|
    ensures SpentFor(sorted[i], Verdict(limits, sorted, meanwhile, rows, i), Admit(limits, sorted, meanwhile, rows, n))
    decreases n
  {
    if i < n - 1 {
      SpentStays(limits, sorted, meanwhile, rows, i, n - 1);
    }
  }

  /** No priority inversion: a task turned away for a budget is not followed, in the same pass, by a
      dispatch out of that budget. */
  lemma NoInversion(limits: Limits, sorted: seq<Candidate>, meanwhile: Interference, rows: Rows, i: nat, j: nat)
    requires i < j < |sorted| == |meanwhile|
    requires Verdict(limits, sorted, meanwhile, rows, j).Dispatched?
    ensures var d := Verdict(limits, sorted, meanwhile, rows, i);
            && !d.GlobalSpent?
            && (d.PoolSpent? ==> sorted[j].pool != sorted[i].pool)
            && (d.DagSpent? ==> sorted[j].dag != sorted[i].dag || sorted[j].dagMax == 0)
  {
    SpentStays(limits, sorted, meanwhile, rows, i, j);
  }

  /** In terms of priorities: a task turned away because its pool was spent is not more urgent than any task
      dispatched into that pool in the same pass. */
  lemma UrgentFirst(limits: Limits, ready: seq<Candidate>, meanwhile: Interference, rows: Rows, i: nat, j: nat)
    requires i < |ready| && j < |ready| == |meanwhile|
    requires Verdict(limits, Sort(ready, Before), meanwhile, rows, i).PoolSpent?
    requires Verdict(limits, Sort(ready, Before), meanwhile, rows, j).Dispatched?
    requires Sort(ready, Before)[i].pool == Sort(ready, Before)[j].pool
    ensures !Before(Sort(ready, Before)[i], Sort(ready, Before)[j])
  {
    SpentThenEarlier(limits, Sort(ready, Before), meanwhile, rows, i, j);
    HarvestIsSorted(ready, j, i);
  }

  lemma SpentThenEarlier(limits: Limits, sorted: seq<Candidate>, meanwhile: Interference, rows: Rows, i: nat, j: nat)
    requires i < |sorted| && j < |sorted| == |meanwhile| && sorted[i].pool == sorted[j].pool
    requires Verdict(limits, sorted, meanwhile, rows, i).PoolSpent?
    requires Verdict(limits, sorted, meanwhile, rows, j).Dispatched?
    ensures j < i
  {
    if i < j {
      NoInversion(limits, sorted, meanwhile, rows, i, j);
    }
  }

  ghost predicate NoInterference(meanwhile: Interference) {
    forall i :: 0 <= i < |meanwhile| ==> meanwhile[i] == map[]
  }

  predicate LiveGroup(live: set<string>, c: Candidate) {
    c.group == "" || c.group in live
  }

  /** max_active_tasks of the DAG's first candidate that has one and whose worker group is up. */
  function FirstCap(live: set<string>, sorted: seq<Candidate>, dag: string, n: nat): Option<nat>
    requires n <= |sorted|
  {
    if n == 0 then None
    else
      var before, c := FirstCap(live, sorted, dag, n - 1), sorted[n - 1];
      if before.None? && c.dag == dag && c.dagMax > 0 && LiveGroup(live, c) then Some(c.dagMax) else before
  }

  /** Without interference the budgets count exactly. */
  ghost predicate Exact(limits: Limits, sorted: seq<Candidate>, l: Ledger) {
    && Fits(l.rows, sorted) && InUse(l.rows) + l.global == limits.maxTasks
    && (forall p :: p in l.pools ==> InPool(l.rows, p) + l.pools[p] == PoolSlots(limits, p))
  }

  /** A DAG is counted from its first cap. */
  ghost predicate DagCounted(limits: Limits, sorted: seq<Candidate>, n: nat, l: Ledger, dag: string)
    requires n <= |sorted| && dag in l.dags
  {
    var first := FirstCap(limits.liveGroups, sorted, dag, n);
    first.Some? && InDag(l.rows, dag) + l.dags[dag] >= first.value
  }

  /** Every DAG met with a cap has been counted, unless the global budget was spent by then. */
  ghost predicate DagsCounted(limits: Limits, sorted: seq<Candidate>, n: nat, l: Ledger)
    requires n <= |sorted|
  {
    && (forall d :: d in l.dags ==> DagCounted(limits, sorted, n, l, d))
    && (l.global > 0 ==> forall d :: FirstCap(limits.liveGroups, sorted, d, n).Some? ==> d in l.dags)
  }

  lemma ExactConsider(limits: Limits, sorted: seq<Candidate>, c: Candidate, l: Ledger)
    requires Exact(limits, sorted, l) && c in sorted
    ensures Exact(limits, sorted, Consider(limits, c, l))
  {
    var l' := Consider(limits, c, l);
    if Decide(limits, c, l).Dispatched? {
      TakingCounts(l.rows, c.key, c.pool, c.dag);
      forall p | p in l'.pools ensures InPool(l'.rows, p) + l'.pools[p] == PoolSlots(limits, p) {
        TakingCounts(l.rows, c.key, p, c.dag);
      }
    }
  }

  lemma DagCountedNext(limits: Limits, sorted: seq<Candidate>, n: nat, l: Ledger, d: string)
    requires n < |sorted| && Fits(l.rows, sorted) && DagsCounted(limits, sorted, n, l)
    requires d in Consider(limits, sorted[n], l).dags
    ensures DagCounted(limits, sorted, n + 1, Consider(limits, sorted[n], l), d)
  {
    var c := sorted[n];
    assert c in sorted;
    if Decide(limits, c, l).Dispatched? {
      TakingCounts(l.rows, c.key, c.pool, d);
    }
    assert d in l.dags ==> DagCounted(limits, sorted, n, l, d);
  }

  lemma DagsConsider(limits: Limits, sorted: seq<Candidate>, n: nat, l: Ledger)
    requires n < |sorted| && Fits(l.rows, sorted) && DagsCounted(limits, sorted, n, l)
    ensures DagsCounted(limits, sorted, n + 1, Consider(limits, sorted[n], l))
  {
    var l' := Consider(limits, sorted[n], l);
    forall d | d in l'.dags ensures DagCounted(limits, sorted, n + 1, l', d) {
      DagCountedNext(limits, sorted, n, l, d);
    }
  }

  lemma AdmitNext(limits: Limits, sorted: seq<Candidate>, meanwhile: Interference, rows: Rows, n: nat)
    requires n < |sorted| == |meanwhile| && NoInterference(meanwhile)
    ensures Admit(limits, sorted, meanwhile, rows, n + 1) ==
            Consider(limits, sorted[n], Admit(limits, sorted, meanwhile, rows, n))
  {
    QuietTurn(limits, sorted, meanwhile, rows, n);
  }

  /** The ledgers of an undisturbed pass. */
  ghost predicate Pass(limits: Limits, sorted: seq<Candidate>, ledgers: seq<Ledger>) {
    && |ledgers| == |sorted| + 1
    && ledgers[0].pools == map[] && ledgers[0].dags == map[] &&
       InUse(ledgers[0].rows) + ledgers[0].global == limits.maxTasks
    && forall i :: 0 <= i < |sorted| ==> ledgers[i + 1] == Consider(limits, sorted[i], ledgers[i])
  }

  lemma PassOf(limits: Limits, sorted: seq<Candidate>, meanwhile: Interference, rows: Rows)
      returns (ledgers: seq<Ledger>)
    requires |sorted| == |meanwhile| && NoInterference(meanwhile)
    ensures Pass(limits, sorted, ledgers) && ledgers[0].rows == rows
    ensures forall n :: 0 <= n <= |sorted| ==> ledgers[n] == Admit(limits, sorted, meanwhile, rows, n)
  {
    ledgers := seq(|sorted| + 1, n requires 0 <= n <= |sorted| => Admit(limits, sorted, meanwhile, rows, n));
    forall i | 0 <= i < |sorted| ensures ledgers[i + 1] == Consider(limits, sorted[i], ledgers[i]) {
      AdmitNext(limits, sorted, meanwhile, rows, i);
    }
  }

  lemma {:induction false} ExactAlong(limits: Limits, sorted: seq<Candidate>, ledgers: seq<Ledger>, n: nat)
    requires Pass(limits, sorted, ledgers) && Fits(ledgers[0].rows, sorted) && n <= |sorted|
    ensures Exact(limits, sorted, ledgers[n])
    decreases n
  {
    if n > 0 {
      ExactAlong(limits, sorted, ledgers, n - 1);
      ExactConsider(limits, sorted, sorted[n - 1], ledgers[n - 1]);
    }
  }

  lemma {:induction false} DagsAlong(limits: Limits, sorted: seq<Candidate>, ledgers: seq<Ledger>, n: nat)
    requires Pass(limits, sorted, ledgers) && Fits(ledgers[0].rows, sorted) && n <= |sorted|
    ensures DagsCounted(limits, sorted, n, ledgers[n])
    decreases n
  {
    if n > 0 {
      DagsAlong(limits, sorted, ledgers, n - 1);
      ExactAlong(limits, sorted, ledgers, n - 1);
      DagsConsider(limits, sorted, n - 1, ledgers[n - 1]);
    }
  }

  lemma QuietTurn(limits: Limits, sorted: seq<Candidate>, meanwhile: Interference, rows: Rows, n: nat)
    requires n < |sorted| == |meanwhile| && NoInterference(meanwhile)
    ensures Turn(limits, sorted, meanwhile, rows, n) == Admit(limits, sorted, meanwhile, rows, n)
  {
    var l := Admit(limits, sorted, meanwhile, rows, n);
    assert Meanwhile(l.rows, map[]) == l.rows;
  }

  /** Rows only leave scheduled. */
  lemma {:induction false} ScheduledBefore(limits: Limits, sorted: seq<Candidate>, meanwhile: Interference,
      rows: Rows, k: Key, i: nat, n: nat)
    requires i <= n <= |sorted| == |meanwhile| && NoInterference(meanwhile)
    requires k in Admit(limits, sorted, meanwhile, rows, n).rows &&
             Admit(limits, sorted, meanwhile, rows, n).rows[k].state.Scheduled?
    ensures k in Admit(limits, sorted, meanwhile, rows, i).rows &&
            Admit(limits, sorted, meanwhile, rows, i).rows[k].state.Scheduled?
    decreases n
  {
    if i < n {
      var l := Admit(limits, sorted, meanwhile, rows, n - 1);
      assert Meanwhile(l.rows, map[]) == l.rows;
      ScheduledBefore(limits, sorted, meanwhile, rows, k, i, n - 1);
    }
  }

  /** Work-conserving: with nothing else moving, a candidate that is still scheduled after the pass has its
      worker group down, or its pool or the whole scheduler full, or its DAG at the cap the pass goes by,
      that of the DAG's first candidate. */
  lemma NothingIdle(limits: Limits, sorted: seq<Candidate>, meanwhile: Interference, rows: Rows, i: nat)
    requires i < |sorted| == |meanwhile| && Fits(rows, sorted) && NoInterference(meanwhile)
    requires var end := Admit(limits, sorted, meanwhile, rows, |sorted|).rows;
             sorted[i].key in end && end[sorted[i].key].state.Scheduled?
    ensures var end, c := Admit(limits, sorted, meanwhile, rows, |sorted|).rows, sorted[i];
            var first := FirstCap(limits.liveGroups, sorted, c.dag, |sorted|);
            || !LiveGroup(limits.liveGroups, c)
            || InUse(end) >= limits.maxTasks
            || InPool(end, c.pool) >= PoolSlots(limits, c.pool)
            || (c.dagMax > 0 && first.Some? && InDag(end, c.dag) >= first.value)
  {
    var c := sorted[i];
    assert c in sorted;
    ScheduledBefore(limits, sorted, meanwhile, rows, c.key, i + 1, |sorted|);
    ScheduledBefore(limits, sorted, meanwhile, rows, c.key, i, i + 1);
    SpentStays(limits, sorted, meanwhile, rows, i, |sorted|);
    var ledgers := PassOf(limits, sorted, meanwhile, rows);
    ExactAlong(limits, sorted, ledgers, |sorted|);
    DagsAlong(limits, sorted, ledgers, |sorted|);
    var l := Admit(limits, sorted, meanwhile, rows, i);
    assert Meanwhile(l.rows, map[]) == l.rows;
    var end := Admit(limits, sorted, meanwhile, rows, |sorted|);
    assert c.dag in end.dags ==> DagCounted(limits, sorted, |sorted|, end, c.dag);
  }

  /** Whatever else moves: a candidate that was still scheduled when it was turned away has its worker group
      down, or its pool's, its DAG's or the whole pass's budget was spent, and stays so to the end. */
  lemma TurnedAwayMeetsSpent(limits: Limits, sorted: seq<Candidate>, meanwhile: Interference, rows: Rows, i: nat)
    requires i < |sorted| == |meanwhile| && !Verdict(limits, sorted, meanwhile, rows, i).Dispatched?
    requires var met := Turn(limits, sorted, meanwhile, rows, i).rows;
             sorted[i].key in met && met[sorted[i].key].state.Scheduled?
    ensures var end, c := Admit(limits, sorted, meanwhile, rows, |sorted|), sorted[i];
            || !LiveGroup(limits.liveGroups, c)
            || end.global <= 0
            || (c.pool in end.pools && end.pools[c.pool] <= 0)
            || (c.dagMax > 0 && c.dag in end.dags && end.dags[c.dag] <= 0)
  {
    SpentStays(limits, sorted, meanwhile, rows, i, |sorted|);
  }

  /** Stopping early changes nothing: once the global budget is spent every later candidate is turned away. */
  lemma {:induction false} StoppingIsFinal(limits: Limits, sorted: seq<Candidate>, meanwhile: Interference,
      rows: Rows, n: nat, j: nat)
    requires n <= j < |sorted| == |meanwhile| && Admit(limits, sorted, meanwhile, rows, n).global <= 0
    ensures Verdict(limits, sorted, meanwhile, rows, j).GlobalSpent?
    decreases j
  {
    if n < j {
      StoppingIsFinal(limits, sorted, meanwhile, rows, n, j - 1);
      SpentStays(limits, sorted, meanwhile, rows, j - 1, j);
    }
  }
}
