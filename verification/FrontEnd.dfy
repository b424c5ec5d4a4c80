/** What the parser guarantees about the tasks it hands to the scheduler (the task checks of Parse in
    internal/scheduler/parser/parser.go): the conditions the scheduling results start from, and the
    limits. What it asks of a task's fields that this project does not model enters as `fieldsOk`. */
module FrontEnd {
  import opened CycleDetection
  import opened Dag
  import opened Foreach
  import opened Graph

  const MAX_IDENTIFIER := 128
  const MAX_DEPS_PER_TASK := 256
  const MAX_DEPENDENCIES := 10000
  const MAX_RETRIES := 100

  predicate Alphanumeric(ch: char) {
    'A' <= ch <= 'Z' || 'a' <= ch <= 'z' || '0' <= ch <= '9'
  }

  /** idPattern and the length limit. */
  predicate ValidId(id: string) {
    && 0 < |id| <= MAX_IDENTIFIER && Alphanumeric(id[0])
    && forall ch :: ch in id ==> Alphanumeric(ch) || ch == '_' || ch == '.' || ch == '-'
  }

  function TotalDeps(tasks: seq<Task>): nat {
    if tasks == [] then 0 else TotalDeps(tasks[..|tasks| - 1]) + |tasks[|tasks| - 1].deps|
  }

  ghost predicate TaskOk(t: Task, fieldsOk: string -> bool) {
    ValidId(t.id) && |t.deps| <= MAX_DEPS_PER_TASK && t.retries <= MAX_RETRIES && fieldsOk(t.id)
  }

  /** Every task is fine by itself, ids are distinct, and there are not too many dependencies. */
  ghost predicate Listable(tasks: seq<Task>, fieldsOk: string -> bool) {
    (forall t :: t in tasks ==> TaskOk(t, fieldsOk)) && DistinctIds(tasks) && TotalDeps(tasks) <= MAX_DEPENDENCIES
  }

  ghost predicate Accepted(tasks: seq<Task>, fieldsOk: string -> bool) {
    Listable(tasks, fieldsOk) && Sound(tasks) && forall t :: t in tasks ==> Distinct(t.deps)
  }

  lemma SelfDependencyIsCycle(tasks: seq<Task>, i: nat)
    requires DistinctIds(tasks) && i < |tasks| && tasks[i].id in tasks[i].deps
    ensures !Acyclic(AdjOf(tasks))
  {
    AdjOfDistinct(tasks);
    var id := tasks[i].id;
    assert Edge(AdjOf(tasks), id, id);
    assert IsCycle(AdjOf(tasks), [id, id]);
  }

  lemma {:induction false} TotalDepsGrows(tasks: seq<Task>, k: nat)
    requires k <= |tasks|
    ensures TotalDeps(tasks[..k]) <= TotalDeps(tasks)
    decreases |tasks| - k
  {
    if k == |tasks| {
      assert tasks[..k] == tasks;
    } else {
      assert tasks[..k + 1][..k] == tasks[..k];
      TotalDepsGrows(tasks, k + 1);
    }
  }

  lemma TakenBefore(tasks: seq<Task>, k: nat)
    requires k < |tasks| && HasTask(tasks[..k], tasks[k].id)
    ensures !DistinctIds(tasks)
  {
    var i :| 0 <= i < k && tasks[..k][i].id == tasks[k].id;
    assert tasks[i].id == tasks[k].id;
  }

  lemma NewIdIsDistinct(tasks: seq<Task>, k: nat)
    requires k < |tasks| && DistinctIds(tasks[..k]) && !HasTask(tasks[..k], tasks[k].id)
    ensures DistinctIds(tasks[..k + 1])
  {
    forall i | 0 <= i < k ensures tasks[i].id != tasks[k].id {
      assert tasks[..k][i] == tasks[i];
    }
    var front, longer := tasks[..k], tasks[..k + 1];
    forall i, j | 0 <= i < j < |longer| ensures longer[i].id != longer[j].id {
      if j < k {
        assert longer[i] == front[i] && longer[j] == front[j];
      }
    }
  }

  /** The loop over the tasks that comes before the graph checks. */
  method SeenIds(tasks: seq<Task>, fieldsOk: string -> bool) returns (ok: bool, seen: set<string>)
    ensures ok <==> Listable(tasks, fieldsOk)
    ensures ok ==> forall id :: id in seen <==> HasTask(tasks, id)
  {
    seen := {};
    var totalDeps := 0;
    for k := 0 to |tasks|
      invariant forall i :: 0 <= i < k ==> TaskOk(tasks[i], fieldsOk)
      invariant DistinctIds(tasks[..k])
      invariant totalDeps == TotalDeps(tasks[..k]) <= MAX_DEPENDENCIES
      invariant forall id :: id in seen <==> HasTask(tasks[..k], id)
    {
      var t := tasks[k];
      assert t in tasks;
      if t.id == "" || |t.id| > MAX_IDENTIFIER || !ValidId(t.id) {
        return false, seen;
      }
      if t.id in seen {
        TakenBefore(tasks, k);
        return false, seen;
      }
      NewIdIsDistinct(tasks, k);
      seen := seen + {t.id};
      forall x ensures x in seen <==> HasTask(tasks[..k + 1], x) {
        HasTaskExtends(tasks, k, x);
      }
      if |t.deps| > MAX_DEPS_PER_TASK {
        return false, seen;
      }
      assert tasks[..k + 1][..k] == tasks[..k];
      totalDeps := totalDeps + |t.deps|;
      TotalDepsGrows(tasks, k + 1);
      if totalDeps > MAX_DEPENDENCIES || t.retries > MAX_RETRIES || !fieldsOk(t.id) {
        return false, seen;
      }
    }
    assert tasks[..|tasks|] == tasks;
    ok := true;
  }

  lemma HasTaskExtends(tasks: seq<Task>, k: nat, x: string)
    requires k < |tasks|
    ensures HasTask(tasks[..k + 1], x) <==> HasTask(tasks[..k], x) || tasks[k].id == x
  {
    if HasTask(tasks[..k], x) {
      var i :| 0 <= i < k && tasks[..k][i].id == x;
      assert tasks[..k + 1][i].id == x;
    }
    assert tasks[..k + 1][k] == tasks[k];
    if HasTask(tasks[..k + 1], x) && tasks[k].id != x {
      var i :| 0 <= i < k + 1 && tasks[..k + 1][i].id == x;
      assert tasks[..k][i].id == x;
    }
  }

  /** One task's dependency list: no repeats, all known, not itself. */
  method CheckDeps(t: Task, seen: set<string>) returns (ok: bool)
    ensures ok <==> Distinct(t.deps) && t.id !in t.deps && forall d :: d in t.deps ==> d in seen
  {
    var seenDeps: set<string> := {};
    for k := 0 to |t.deps|
      invariant seenDeps == Elements(t.deps[..k])
      invariant Distinct(t.deps[..k]) && t.id !in t.deps[..k] && forall d :: d in t.deps[..k] ==> d in seen
    {
      var dep := t.deps[k];
      assert t.deps[..k + 1] == t.deps[..k] + [dep];
      if dep in seenDeps {
        var i :| 0 <= i < k && t.deps[..k][i] == dep;
        assert t.deps[i] == t.deps[k];
        return false;
      }
      seenDeps := seenDeps + {dep};
      if dep !in seen || dep == t.id {
        return false;
      }
    }
    assert t.deps[..|t.deps|] == t.deps;
    ok := true;
  }

  /** The loop, the dependency checks and the search for a cycle accept exactly the accepted lists. */
  method CheckGraph(tasks: seq<Task>, fieldsOk: string -> bool) returns (ok: bool)
    ensures ok <==> Accepted(tasks, fieldsOk)
  {
    var seen: set<string>;
    ok, seen := SeenIds(tasks, fieldsOk);
    if !ok {
      return;
    }
    for k := 0 to |tasks|
      invariant forall i :: 0 <= i < k ==>
                  Distinct(tasks[i].deps) && forall d :: d in tasks[i].deps ==> HasTask(tasks, d)
    {
      var fine := CheckDeps(tasks[k], seen);
      if !fine {
        if tasks[k].id in tasks[k].deps {
          SelfDependencyIsCycle(tasks, k);
        } else {
          assert tasks[k] in tasks;
        }
        return false;
      }
    }
    assert ClosedDeps(tasks);
    var verdict := DetectCycle(tasks);
    ok := verdict.NoCycle?;
  }

  /** The written list can be expanded within the limits. */
  ghost predicate Expandable(listed: seq<Listed>) {
    |listed| <= MAX_TASKS && (forall t :: t in listed ==> Spreadable(t)) && |SpreadAll(listed)| <= MAX_TASKS
  }

  /** The task limit, the expansion and the checks together: accepted exactly when each of them is met, and
      what reaches the scheduler is the expansion of what was written. */
  method ParseTasks(listed: seq<Listed>, fieldsOk: string -> bool) returns (ok: bool, tasks: seq<Task>)
    ensures ok <==> Expandable(listed) && Accepted(TasksOf(Expand(listed)), fieldsOk)
    ensures ok ==> tasks == TasksOf(Expand(listed)) && |tasks| <= 1000
    ensures ok ==> forall t :: t in tasks ==> 0 < |t.id| <= 128 && |t.deps| <= 256 && t.retries <= 100
  {
    if |listed| > MAX_TASKS {
      return false, [];
    }
    var expansion := ExpandForeach(listed);
    if expansion.Expanded? {
      if NoForeach(listed) {
        NoForeachUnchanged(listed);
      }
      tasks := TasksOf(expansion.tasks);
      ok := CheckGraph(tasks, fieldsOk);
    } else {
      ok, tasks := false, [];
    }
  }
}
