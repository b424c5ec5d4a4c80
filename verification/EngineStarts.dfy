/** How executions of module Engine begin: a first state for every task list, a task without
    dependencies, and the history in which all dependencies of some task have succeeded. */
module EngineStarts {
  import opened BlockPropagation
  import opened Dag
  import opened Engine
  import opened EngineEnds
  import opened EngineOrder
  import opened EnginePaths
  import opened Graph
  import opened RunStates
  import opened TaskStore
  import opened TriggerRules

  function Fresh(t: Task): Row {
    Row(Scheduled, 0, t.retries, NoRef)
  }

  lemma OnePerId(tasks: seq<Task>, t: Task, u: Task)
    requires DistinctIds(tasks) && t in tasks && u in tasks && t.id == u.id
    ensures t == u
  {
  }

  lemma {:induction false} FreshRows(tasks: seq<Task>) returns (rows: map<string, Row>)
    requires DistinctIds(tasks)
    ensures forall id :: id in rows <==> HasTask(tasks, id)
    ensures forall t :: t in tasks ==> t.id in rows && rows[t.id] == Fresh(t)
    decreases |tasks|
  {
    if tasks == [] {
      rows := map[];
    } else {
      var n := |tasks| - 1;
      var front := FreshRows(tasks[..n]);
      rows := front[tasks[n].id := Fresh(tasks[n])];
      forall id ensures id in rows <==> HasTask(tasks, id) {
        if i :| 0 <= i < |tasks| && tasks[i].id == id {
          assert i < n ==> tasks[..n][i].id == id;
        }
        if i :| 0 <= i < n && tasks[..n][i].id == id {
          assert tasks[i].id == id;
        }
      }
      forall t | t in tasks ensures t.id in rows && rows[t.id] == Fresh(t) {
        var i :| 0 <= i < |tasks| && tasks[i] == t;
        assert i < n ==> t in tasks[..n];
      }
    }
  }

  /** The rows of a run that has just been started. */
  ghost predicate AllFresh(c: Config, s: State) {
    && (forall id :: id in s.rows ==> HasTask(c.tasks, id))
    && (forall t :: t in c.tasks ==> t.id in s.rows && s.rows[t.id] == Fresh(t))
  }

  lemma Start(c: Config) returns (p: Path, start: State, s: State)
    requires DistinctIds(c.tasks)
    ensures Init(c, start) && Leads(c, p, start, s) && Tame(p.events) && Resting(s) && AllFresh(c, s) &&
            !s.listed && s.procs == map[]
  {
    var rows := FreshRows(c.tasks);
    start := State(rows, RunQueued, false, Ticking, map[], map[], {}, Idle);
    forall id ensures id in rows <==> id in (set i | 0 <= i < |c.tasks| :: c.tasks[i].id) {
      if HasTask(c.tasks, id) {
        var i :| 0 <= i < |c.tasks| && c.tasks[i].id == id;
      }
    }
    assert rows.Keys == (set i | 0 <= i < |c.tasks| :: c.tasks[i].id);
    p := Stay(c, start);
    var listed := Do(c, start, ListRun);
    p := Then(c, p, start, start, ListRun);
    s := Do(c, listed, StartRun);
    p := Then(c, p, start, listed, StartRun);
  }

  lemma RootIsReady(t: Task, st: States)
    requires t.deps == []
    ensures TaskReady(t, st)
  {
    assert GateStates(t, st) == [];
  }

  /** A task of `among` whose dependencies are all outside it. */
  lemma Lowest(tasks: seq<Task>, among: set<string>) returns (t: Task)
    requires DistinctIds(tasks) && Acyclic(AdjOf(tasks)) && among != {}
    requires forall id :: id in among ==> HasTask(tasks, id)
    ensures t in tasks && t.id in among && forall d :: d in t.deps ==> d !in among
  {
    var n := MinimalMember(AdjOf(tasks), among);
    var i :| 0 <= i < |tasks| && tasks[i].id == n;
    AdjOfDistinct(tasks);
    t := tasks[i];
    forall d | d in t.deps ensures d !in among {
      assert Edge(AdjOf(tasks), n, d);
    }
  }

  lemma FirstDepInside(tasks: seq<Task>, t: Task)
    requires ClosedDeps(tasks) && t in tasks
    ensures t.deps == [] || (t.deps[0] in t.deps && t.deps[0] in Ids(tasks))
  {
    if t.deps != [] {
      assert HasTask(tasks, t.deps[0]);
    }
  }

  lemma Root(tasks: seq<Task>) returns (t: Task)
    requires Sound(tasks) && tasks != []
    ensures t in tasks && t.deps == []
  {
    assert tasks[0].id in Ids(tasks);
    t := Lowest(tasks, Ids(tasks));
    FirstDepInside(tasks, t);
  }

  ghost predicate IsRoot(tasks: seq<Task>, id: string) {
    exists t :: t in tasks && t.id == id && t.deps == []
  }

  /** A task with dependencies, none of which has any. */
  lemma Dependent(tasks: seq<Task>) returns (t: Task)
    requires Sound(tasks) && exists u :: u in tasks && u.deps != []
    ensures t in tasks && t.deps != [] && forall d :: d in t.deps ==> IsRoot(tasks, d) && d != t.id
  {
    var upper := set i | 0 <= i < |tasks| && tasks[i].deps != [] :: tasks[i].id;
    var u :| u in tasks && u.deps != [];
    assert u.id in upper;
    t := Lowest(tasks, upper);
    var j :| 0 <= j < |tasks| && tasks[j].id == t.id && tasks[j].deps != [];
    OnePerId(tasks, t, tasks[j]);
    forall d | d in t.deps ensures IsRoot(tasks, d) && d != t.id {
      var k :| 0 <= k < |tasks| && tasks[k] == t;
      assert HasTask(tasks, d);
      var i :| 0 <= i < |tasks| && tasks[i].id == d;
      assert tasks[i] in tasks && tasks[i].deps == [];
    }
  }

  ghost predicate Untouched(s: State, id: string) {
    id in s.rows && s.rows[id].state.Scheduled? && forall k :: k in s.procs ==> k.task != id
  }

  /** A task without dependencies is attempted once, and succeeds. */
  lemma SucceedOne(c: Config, p: Path, start: State, s: State, t: Task) returns (longer: Path, s': State)
    requires Leads(c, p, start, s) && Tame(p.events) && Resting(s)
    requires t in c.tasks && t.deps == [] && Untouched(s, t.id)
    ensures Leads(c, longer, start, s') && Tame(longer.events) && Resting(s')
    ensures t.id in s'.rows && s'.rows == s.rows[t.id := s'.rows[t.id]] && s'.rows[t.id].state.Success?
    ensures forall k :: k in s'.procs ==> k in s.procs || k.task == t.id
  {
    RootIsReady(t, StatesOf(s.rows));
    longer := RunAttempt(c, p, start, s, t);
    s' := Ran(s, t);
  }

  lemma {:induction false} SucceedAll(c: Config, p: Path, start: State, s: State, ids: set<string>)
    returns (longer: Path, s': State)
    requires Leads(c, p, start, s) && Tame(p.events) && Resting(s)
    requires forall id :: id in ids ==> IsRoot(c.tasks, id) && Untouched(s, id)
    ensures Leads(c, longer, start, s') && Tame(longer.events) && Resting(s') && s'.rows.Keys == s.rows.Keys
    ensures forall id :: id in s.rows ==> if id in ids then s'.rows[id].state.Success? else s'.rows[id] == s.rows[id]
    decreases ids
  {
    if ids == {} {
      longer, s' := p, s;
    } else {
      var id :| id in ids;
      var t :| t in c.tasks && t.id == id && t.deps == [];
      var p1, s1 := SucceedOne(c, p, start, s, t);
      longer, s' := SucceedAll(c, p1, start, s1, ids - {id});
    }
  }

  lemma DepsSucceed(c: Config, t: Task) returns (p: Path, start: State, s: State)
    requires DistinctIds(c.tasks) && t in c.tasks && forall d :: d in t.deps ==> IsRoot(c.tasks, d) && d != t.id
    ensures Init(c, start) && Leads(c, p, start, s) && Tame(p.events) && Resting(s)
    ensures t.id in s.rows && s.rows[t.id] == Fresh(t) && DepsDone(s.rows, t)
    ensures forall u :: u in c.tasks ==> u.id in s.rows
  {
    var p0, s0;
    p0, start, s0 := Start(c);
    var ids := set d | d in t.deps;
    forall id | id in ids ensures Untouched(s0, id) {
      var u :| u in c.tasks && u.id == id;
    }
    p, s := SucceedAll(c, p0, start, s0, ids);
  }
}
