/** Which tasks a retry clears (downstreamClosure, RetryTask and retryRunLocked in
    internal/scheduler/scheduler.go): the breadth-first search visits exactly what depends on the
    retried task, so the set that is cleared is closed downstream. Module Engine lets a retry clear just
    these sets. */
module DownstreamClosure {
  import opened Dag
  import opened Graph
  import opened TaskStore
  import opened TriggerRules

  /** With a task, every task that depends on it. */
  ghost predicate ClosedDownstream(tasks: seq<Task>, ids: set<string>) {
    forall t, d :: t in tasks && d in t.deps && d in ids ==> t.id in ids
  }

  /** `b` depends directly on `a`. */
  ghost predicate Dependent(tasks: seq<Task>, a: string, b: string) {
    exists t :: t in tasks && t.id == b && a in t.deps
  }

  ghost predicate IsDownPath(tasks: seq<Task>, p: seq<string>) {
    |p| >= 1 && forall i :: 0 <= i < |p| - 1 ==> Dependent(tasks, p[i], p[i + 1])
  }

  /** `x` is `a`, or depends on it through any number of tasks. */
  ghost predicate Downstream(tasks: seq<Task>, a: string, x: string) {
    exists p :: IsDownPath(tasks, p) && p[0] == a && p[|p| - 1] == x
  }

  lemma DownstreamSelf(tasks: seq<Task>, a: string)
    ensures Downstream(tasks, a, a)
  {
    assert IsDownPath(tasks, [a]);
  }

  lemma DownstreamStep(tasks: seq<Task>, a: string, x: string, y: string)
    requires Downstream(tasks, a, x) && Dependent(tasks, x, y)
    ensures Downstream(tasks, a, y)
  {
    var p :| IsDownPath(tasks, p) && p[0] == a && p[|p| - 1] == x;
    var q := p + [y];
    forall i | 0 <= i < |q| - 1 ensures Dependent(tasks, q[i], q[i + 1]) {
      if i < |p| - 1 { assert Dependent(tasks, p[i], p[i + 1]); }
    }
    assert IsDownPath(tasks, q);
  }

  /** A set that holds `a` and is closed downstream holds everything downstream of `a`. */
  lemma {:induction false} ClosedHoldsDownstream(tasks: seq<Task>, ids: set<string>, p: seq<string>)
    requires ClosedDownstream(tasks, ids) && IsDownPath(tasks, p) && p[0] in ids
    ensures p[|p| - 1] in ids
    decreases |p|
  {
    if |p| > 1 {
      assert Dependent(tasks, p[0], p[1]);
      var rest := p[1..];
      forall i | 0 <= i < |rest| - 1 ensures Dependent(tasks, rest[i], rest[i + 1]) {
        assert Dependent(tasks, p[i + 1], p[i + 2]);
      }
      ClosedHoldsDownstream(tasks, ids, rest);
    }
  }

  /** The dependents map of a task list. */
  ghost predicate DependentsMap(tasks: seq<Task>, dependents: map<string, seq<string>>) {
    forall a, b :: Edge(dependents, a, b) <==> Dependent(tasks, a, b)
  }

  lemma DependentExtends(tasks: seq<Task>, t: Task, a: string, b: string)
    ensures Dependent(tasks + [t], a, b) <==> Dependent(tasks, a, b) || (t.id == b && a in t.deps)
  {
    if Dependent(tasks, a, b) {
      var u :| u in tasks && u.id == b && a in u.deps;
      assert u in tasks + [t];
    }
    if t.id == b && a in t.deps {
      assert t in tasks + [t];
    }
  }

  method AddDependents(dependents: map<string, seq<string>>, t: Task) returns (r: map<string, seq<string>>)
    ensures forall a, b :: Edge(r, a, b) <==> Edge(dependents, a, b) || (b == t.id && a in t.deps)
  {
    r := dependents;
    for k := 0 to |t.deps|
      invariant forall a, b :: Edge(r, a, b) <==> Edge(dependents, a, b) || (b == t.id && a in t.deps[..k])
    {
      var dep := t.deps[k];
      ghost var before := r;
      r := r[dep := (if dep in r then r[dep] else []) + [t.id]];
      assert t.deps[..k + 1] == t.deps[..k] + [dep];
      assert forall a, b :: Edge(r, a, b) <==> Edge(before, a, b) || (a == dep && b == t.id);
    }
  }

  method Dependents(tasks: seq<Task>) returns (dependents: map<string, seq<string>>)
    ensures DependentsMap(tasks, dependents)
  {
    dependents := map[];
    for k := 0 to |tasks|
      invariant DependentsMap(tasks[..k], dependents)
    {
      dependents := AddDependents(dependents, tasks[k]);
      assert tasks[..k + 1] == tasks[..k] + [tasks[k]];
      forall a, b ensures Edge(dependents, a, b) <==> Dependent(tasks[..k + 1], a, b) {
        DependentExtends(tasks[..k], tasks[k], a, b);
      }
    }
    assert tasks[..|tasks|] == tasks;
  }

  /** Where the search stands: what it found is downstream, and nothing it passed was dropped. */
  ghost predicate Searching(tasks: seq<Task>, taskId: string, closure: set<string>, queue: seq<string>) {
    && (forall x :: x in closure || x in queue ==> Downstream(tasks, taskId, x))
    && (taskId in closure || taskId in queue)
    && (forall a, b :: a in closure && Dependent(tasks, a, b) ==> b in closure || b in queue)
  }

  lemma Expand(tasks: seq<Task>, taskId: string, closure: set<string>, queue: seq<string>, found: seq<string>)
    requires Searching(tasks, taskId, closure, queue) && queue != []
    requires forall b :: b in found <==> Dependent(tasks, queue[0], b)
    ensures Searching(tasks, taskId, closure + {queue[0]}, queue[1..] + found)
  {
    var id, rest := queue[0], queue[1..] + found;
    assert forall x :: x in queue ==> x == id || x in queue[1..];
    forall x | x in found ensures Downstream(tasks, taskId, x) {
      DownstreamStep(tasks, taskId, id, x);
    }
  }

  /** Everything downstream of `taskId`, and nothing else. */
  method Closure(tasks: seq<Task>, taskId: string) returns (closure: set<string>)
    ensures forall x :: x in closure <==> Downstream(tasks, taskId, x)
  {
    var dependents := Dependents(tasks);
    closure := {};
    var queue := [taskId];
    ghost var all := Ids(tasks) + {taskId};
    DownstreamSelf(tasks, taskId);
    while queue != []
      invariant Searching(tasks, taskId, closure, queue)
      invariant forall x :: x in queue ==> x in all
      decreases all - closure, |queue|
    {
      var id := queue[0];
      if id in closure {
        assert forall x :: x in queue ==> x == id || x in queue[1..];
        queue := queue[1..];
      } else {
        var found := if id in dependents then dependents[id] else [];
        assert forall b :: b in found <==> Edge(dependents, id, b);
        Expand(tasks, taskId, closure, queue, found);
        assert id in all - closure;
        closure := closure + {id};
        queue := queue[1..] + found;
      }
    }
    assert ClosedDownstream(tasks, closure) by {
      forall t, d | t in tasks && d in t.deps && d in closure ensures t.id in closure {
        assert Dependent(tasks, d, t.id);
      }
    }
    forall x | Downstream(tasks, taskId, x) ensures x in closure {
      var p :| IsDownPath(tasks, p) && p[0] == taskId && p[|p| - 1] == x;
      ClosedHoldsDownstream(tasks, closure, p);
    }
  }

  /** What RetryTask clears, and the least set that holds the task and is closed downstream. */
  lemma ClosureIsLeast(tasks: seq<Task>, taskId: string, closure: set<string>)
    requires forall x :: x in closure <==> Downstream(tasks, taskId, x)
    ensures taskId in closure && ClosedDownstream(tasks, closure) && ClosedDownstream(tasks, closure * Ids(tasks))
    ensures forall ids :: ClosedDownstream(tasks, ids) && taskId in ids ==> closure <= ids
  {
    DownstreamSelf(tasks, taskId);
    forall t, d | t in tasks && d in t.deps && d in closure ensures t.id in closure {
      DownstreamStep(tasks, taskId, d, t.id);
    }
    forall ids | ClosedDownstream(tasks, ids) && taskId in ids ensures closure <= ids {
      forall x | x in closure ensures x in ids {
        var p :| IsDownPath(tasks, p) && p[0] == taskId && p[|p| - 1] == x;
        ClosedHoldsDownstream(tasks, ids, p);
      }
    }
  }

  ghost predicate ReversedPath(p: seq<string>, q: seq<string>) {
    |p| == |q| && forall i :: 0 <= i < |p| ==> q[i] == p[|p| - 1 - i]
  }

  function Reversed(p: seq<string>): (q: seq<string>)
    ensures ReversedPath(p, q)
  {
    seq(|p|, i requires 0 <= i < |p| => p[|p| - 1 - i])
  }

  /** Reachability through dependents is reachability through dependencies, the other way round. */
  lemma DownstreamIsReach(tasks: seq<Task>, a: string, x: string)
    requires DistinctIds(tasks)
    ensures Downstream(tasks, a, x) <==> Reach(AdjOf(tasks), x, a)
  {
    if Downstream(tasks, a, x) {
      var p :| IsDownPath(tasks, p) && p[0] == a && p[|p| - 1] == x;
      var q := Reversed(p);
      forall i | 0 <= i < |q| - 1 ensures Edge(AdjOf(tasks), q[i], q[i + 1]) {
        assert Dependent(tasks, p[|p| - 2 - i], p[|p| - 1 - i]);
        DependentIsEdge(tasks, q[i + 1], q[i]);
      }
      assert IsPath(AdjOf(tasks), q);
    }
    if Reach(AdjOf(tasks), x, a) {
      var q :| IsPath(AdjOf(tasks), q) && q[0] == x && q[|q| - 1] == a;
      var p := Reversed(q);
      forall i | 0 <= i < |p| - 1 ensures Dependent(tasks, p[i], p[i + 1]) {
        assert Edge(AdjOf(tasks), q[|q| - 2 - i], q[|q| - 1 - i]);
        DependentIsEdge(tasks, p[i], p[i + 1]);
      }
      assert IsDownPath(tasks, p);
    }
  }

  lemma DependentIsEdge(tasks: seq<Task>, a: string, b: string)
    requires DistinctIds(tasks)
    ensures Dependent(tasks, a, b) <==> Edge(AdjOf(tasks), b, a)
  {
    AdjOfDistinct(tasks);
    if Dependent(tasks, a, b) {
      var t :| t in tasks && t.id == b && a in t.deps;
      var i :| 0 <= i < |tasks| && tasks[i] == t;
    }
    if Edge(AdjOf(tasks), b, a) {
      var i :| 0 <= i < |tasks| && tasks[i].id == b;
      assert tasks[i] in tasks;
    }
  }

  // ---- the retries ----

  predicate Retryable(row: Row) {
    row.state.Failed? || row.state.UpstreamFailed? || row.state.Cancelled? || row.state.TimedOut?
  }

  /** RetryTask's choice: the task, which is one of the definition, and what is downstream of it. */
  ghost predicate RetryTaskClears(tasks: seq<Task>, id: string, ids: set<string>) {
    id in Ids(tasks) && forall x :: x in ids <==> x in Ids(tasks) && Downstream(tasks, id, x)
  }

  ghost predicate ClearedBecause(tasks: seq<Task>, rows: map<string, Row>, x: string) {
    exists id :: id in rows && Retryable(rows[id]) && id in Ids(tasks) && Downstream(tasks, id, x)
  }

  /** RetryRun's choice: every failed, upstream_failed, cancelled or timed-out task of the definition, and what
      is downstream of one. */
  ghost predicate RetryRunClears(tasks: seq<Task>, rows: map<string, Row>, ids: set<string>) {
    forall x :: x in ids <==> x in Ids(tasks) && ClearedBecause(tasks, rows, x)
  }

  /** A set that some retry clears; with nothing to clear a retry is refused. */
  ghost predicate Retries(tasks: seq<Task>, rows: map<string, Row>, ids: set<string>) {
    (exists id :: id in rows && RetryTaskClears(tasks, id, ids)) || (RetryRunClears(tasks, rows, ids) && ids != {})
  }

  lemma RetryTaskIsClosed(tasks: seq<Task>, id: string, ids: set<string>)
    requires RetryTaskClears(tasks, id, ids)
    ensures ClosedDownstream(tasks, ids) && id in ids
  {
    DownstreamSelf(tasks, id);
    forall t, d | t in tasks && d in t.deps && d in ids ensures t.id in ids {
      assert Dependent(tasks, d, t.id);
      DownstreamStep(tasks, id, d, t.id);
    }
  }

  lemma RetryRunIsClosed(tasks: seq<Task>, rows: map<string, Row>, ids: set<string>)
    requires RetryRunClears(tasks, rows, ids)
    ensures ClosedDownstream(tasks, ids)
  {
    forall t, d | t in tasks && d in t.deps && d in ids ensures t.id in ids {
      var id :| id in rows && Retryable(rows[id]) && id in Ids(tasks) && Downstream(tasks, id, d);
      assert Dependent(tasks, d, t.id);
      DownstreamStep(tasks, id, d, t.id);
    }
  }

  /** RetryRun clears every task of the definition that failed, was blocked, was cancelled or timed out, and besides
      only what is downstream of one of those; there is nothing to retry exactly when there is none. */
  lemma RetryRunIsDriven(tasks: seq<Task>, rows: map<string, Row>, ids: set<string>, x: string)
    requires RetryRunClears(tasks, rows, ids)
    ensures x in ids <==>
              x in Ids(tasks) &&
              exists id :: id in rows && rows[id].state in {Failed, UpstreamFailed, Cancelled, TimedOut} &&
                           id in Ids(tasks) && Downstream(tasks, id, x)
    ensures x in rows && x in Ids(tasks) && rows[x].state in {Failed, UpstreamFailed, Cancelled, TimedOut} ==> x in ids
    ensures ids == {} <==>
            forall id :: id in rows && id in Ids(tasks) ==>
                rows[id].state !in {Failed, UpstreamFailed, Cancelled, TimedOut}
  {
    if id :| id in rows && id in Ids(tasks) && rows[id].state in {Failed, UpstreamFailed, Cancelled, TimedOut} {
      DownstreamSelf(tasks, id);
      assert ClearedBecause(tasks, rows, id);
    }
    DownstreamSelf(tasks, x);
    assert x in rows && x in Ids(tasks) && rows[x].state in {Failed, UpstreamFailed, Cancelled, TimedOut} ==>
        ClearedBecause(tasks, rows, x);
  }

  /** Whatever a retry clears is closed downstream, and not empty. */
  lemma RetryIsClosed(tasks: seq<Task>, rows: map<string, Row>, ids: set<string>)
    requires Retries(tasks, rows, ids)
    ensures ClosedDownstream(tasks, ids) && ids != {}
  {
    if id :| id in rows && RetryTaskClears(tasks, id, ids) {
      RetryTaskIsClosed(tasks, id, ids);
    } else {
      RetryRunIsClosed(tasks, rows, ids);
    }
  }

  /** There is a set that RetryTask clears. */
  lemma TaskClosure(tasks: seq<Task>, id: string) returns (ids: set<string>)
    requires id in Ids(tasks)
    ensures RetryTaskClears(tasks, id, ids) && ids <= Ids(tasks) && id in ids && ClosedDownstream(tasks, ids)
  {
    ids := set x | x in Ids(tasks) && Downstream(tasks, id, x);
    RetryTaskIsClosed(tasks, id, ids);
  }

  method ValidIds(tasks: seq<Task>) returns (valid: set<string>)
    ensures valid == Ids(tasks)
  {
    valid := {};
    for k := 0 to |tasks|
      invariant valid == Ids(tasks[..k])
    {
      assert tasks[..k + 1] == tasks[..k] + [tasks[k]];
      valid := valid + {tasks[k].id};
    }
    assert tasks[..|tasks|] == tasks;
  }

  method RetryTaskIds(tasks: seq<Task>, taskId: string) returns (ids: set<string>)
    requires taskId in Ids(tasks)
    ensures RetryTaskClears(tasks, taskId, ids)
  {
    var valid := ValidIds(tasks);
    var closure := Closure(tasks, taskId);
    ids := closure * valid;
  }

  /** retryRunLocked's loop over the rows; empty means there is nothing to retry. */
  method RetryRunIds(tasks: seq<Task>, rows: map<string, Row>) returns (ids: set<string>)
    ensures RetryRunClears(tasks, rows, ids)
  {
    var valid := ValidIds(tasks);
    ids := {};
    var left := rows.Keys;
    while left != {}
      invariant left <= rows.Keys
      invariant RetryRunClears(tasks, rows - left, ids)
      decreases |left|
    {
      var id :| id in left;
      var added: set<string> := {};
      if id in valid && Retryable(rows[id]) {
        var closure := Closure(tasks, id);
        added := closure * valid;
      }
      forall x ensures ClearedBecause(tasks, rows - (left - {id}), x) <==>
                       ClearedBecause(tasks, rows - left, x) ||
                       (id in valid && Retryable(rows[id]) && Downstream(tasks, id, x))
      {
        OneMoreRow(tasks, rows, left, id, x);
      }
      left := left - {id};
      ids := ids + added;
    }
    assert rows - left == rows;
  }

  lemma OneMoreRow(tasks: seq<Task>, rows: map<string, Row>, left: set<string>, id: string, x: string)
    requires id in left && id in rows
    ensures ClearedBecause(tasks, rows - (left - {id}), x) <==>
              ClearedBecause(tasks, rows - left, x) ||
              (id in Ids(tasks) && Retryable(rows[id]) && Downstream(tasks, id, x))
  {
    var more, fewer := rows - (left - {id}), rows - left;
    if ClearedBecause(tasks, fewer, x) {
      var e :| e in fewer && Retryable(fewer[e]) && e in Ids(tasks) && Downstream(tasks, e, x);
      assert e in more && more[e] == fewer[e];
    }
    if id in Ids(tasks) && Retryable(rows[id]) && Downstream(tasks, id, x) {
      assert id in more && more[id] == rows[id];
    }
    if ClearedBecause(tasks, more, x) {
      var e :| e in more && Retryable(more[e]) && e in Ids(tasks) && Downstream(tasks, e, x);
      assert e != id ==> e in fewer && fewer[e] == more[e];
    }
  }
}
