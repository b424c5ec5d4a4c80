/** When a retry can orphan an attempt: exactly after a crash that caught an ended run with a row still
    queued or running, which only a cancel or a timeout that was cut short leaves behind. */
module EngineOrphans {
  import opened Dag
  import DownstreamClosure
  import opened Engine
  import opened EnginePaths
  import opened EngineProgress
  import opened EngineStarts
  import opened TaskStore
  import opened TriggerRules

  /** Somebody still follows the attempt of a row that the retry will clear. */
  ghost predicate Orphans(s: State, ids: set<string>) {
    exists w :: w in s.workers && s.workers[w].task in ids && s.workers[w].task in s.rows &&
                Matches(s.rows[s.workers[w].task], s.workers[w].ti.ref)
  }

  /** With no further crash that is not calm, a retry can come to be accepted over a followed attempt. */
  ghost predicate CanOrphan(c: Config, s: State) {
    exists p, s', ids :: Leads(c, p, s, s') && CalmCrashes(p.trace, p.events) &&
                         Enabled(c, s', RetryBegin(ids)) && Orphans(s', ids)
  }

  /** RetryTask of that task. */
  lemma OrphansNow(c: Config, p: Path, start: State, s: State, w: nat)
    requires Leads(c, p, start, s) && CalmCrashes(p.trace, p.events)
    requires c.operators && s.op == Idle && s.run.Ended() && TasksHaveRows(c, s) && RowsHaveTasks(c, s)
    requires w in s.workers && s.workers[w].task in s.rows
    requires Matches(s.rows[s.workers[w].task], s.workers[w].ti.ref)
    ensures CanOrphan(c, start)
  {
    var id := s.workers[w].task;
    assert HasTask(c.tasks, id);
    var ids := DownstreamClosure.TaskClosure(c.tasks, id);
    assert Enabled(c, s, RetryBegin(ids)) && Orphans(s, ids);
  }

  lemma SecondPass(c: Config, s: State, id: string) returns (p: Path, s': State, w: nat)
    requires s.phase == RecoverQueued && s.workers == map[] && id in s.rows && s.rows[id].state.Running?
    ensures Leads(c, p, s, s') && CalmCrashes(p.trace, p.events)
    ensures s' == s.(phase := RecoverRunning, workers := s'.workers)
    ensures w in s'.workers && s'.workers[w] == Worker(id, s.rows[id], RecRunning)
  {
    p := Stay(c, s);
    var again := RecoveryStarts(s.rows, TaskState.Running, RecRunning, {});
    s' := s.(phase := RecoverRunning, workers := s.workers + again);
    w :| w in again && again[w] == Worker(id, s.rows[id], RecRunning);
    assert s'.workers[w] == again[w];
    p := Take(c, p, s, s, RecoverNext, again, s');
  }

  /** Recovery's second pass follows the running row again. */
  lemma SecondPassOrphans(c: Config, s: State, id: string)
    requires c.operators && TasksHaveRows(c, s) && RowsHaveTasks(c, s) && s.run.Ended() && s.op == Idle
    requires s.phase == RecoverQueued && s.workers == map[]
    requires id in s.rows && s.rows[id].state.Running?
    ensures CanOrphan(c, s)
  {
    var p, s', w := SecondPass(c, s, id);
    OrphansNow(c, p, s, s', w);
  }

  /** The first pass follows the queued one. */
  lemma FirstPassOrphans(c: Config, s: State, id: string)
    requires c.operators && TasksHaveRows(c, s) && RowsHaveTasks(c, s) && s.run.Ended() && s.op == Idle
    requires id in s.rows && s.rows[id].state.Queued?
    requires exists w :: w in s.workers && s.workers[w] == Worker(id, s.rows[id], RecProbe)
    ensures CanOrphan(c, s)
  {
    var p := Stay(c, s);
    var w :| w in s.workers && s.workers[w] == Worker(id, s.rows[id], RecProbe);
    OrphansNow(c, p, s, s, w);
  }

  lemma UncalmCrashOrphans(c: Config, s: State, spawned: map<nat, Worker>, s': State)
    requires c.operators && TasksHaveRows(c, s) && RowsHaveTasks(c, s)
    requires Next(c, s, Crash, spawned, s') && !CalmCrash(s)
    ensures CanOrphan(c, s')
  {
    if id :| id in s.rows && s.rows[id].state.Queued? {
      FirstPassOrphans(c, s', id);
    } else {
      var id :| id in s.rows && s.rows[id].state.Running?;
      assert s'.workers == map[];
      SecondPassOrphans(c, s', id);
    }
  }

  ghost predicate CalmUntil(trace: seq<State>, events: seq<Event>, n: nat) {
    forall i :: 0 <= i < n && i < |events| && i < |trace| && events[i].step.Crash? ==> CalmCrash(trace[i])
  }

  lemma CalmNeverOrphans(c: Config, trace: seq<State>, events: seq<Event>, i: nat, p: Path, s: State, ids: set<string>)
    requires Execution(c, trace, events) && i < |trace| && CalmUntil(trace, events, i)
    requires Leads(c, p, trace[i], s) && CalmCrashes(p.trace, p.events) && Enabled(c, s, RetryBegin(ids))
    ensures !Orphans(s, ids)
  {
    Joined(c, trace, events, i, p, s);
    var joined, steps := trace[..i] + p.trace, events[..i] + p.events;
    var n := i + |p.events|;
    assert joined[n] == s;
    assert CalmCrashes(joined, steps);
    RetryNeverOrphans(c, joined, steps, n, ids);
    assert Orphans(s, ids) ==> SomeoneWrites(s);
  }

  /** After a crash, in any execution whose earlier crashes were calm and whoever operates the run from there,
      a retry can orphan an attempt if and only if this crash was not calm. */
  lemma RetryOrphansIff(c: Config, trace: seq<State>, events: seq<Event>, i: nat)
    requires Execution(c, trace, events) && c.operators && i < |events| && events[i].step.Crash?
    requires CalmUntil(trace, events, i)
    ensures CanOrphan(c, trace[i + 1]) <==> !CalmCrash(trace[i])
  {
    assert Next(c, trace[i], events[i].step, events[i].spawned, trace[i + 1]);
    RowsThroughout(c, trace, events, i);
    KeysAreTasks(c, trace[0], trace[i]);
    if CalmCrash(trace[i]) {
      assert CalmUntil(trace, events, i + 1);
      forall p, s, ids |
        Leads(c, p, trace[i + 1], s) && CalmCrashes(p.trace, p.events) && Enabled(c, s, RetryBegin(ids))
        ensures !Orphans(s, ids)
      {
        CalmNeverOrphans(c, trace, events, i + 1, p, s, ids);
      }
    } else {
      UncalmCrashOrphans(c, trace[i], events[i].spawned, trace[i + 1]);
    }
  }

  // ---- which configurations are safe ----

  ghost predicate NeverOrphans(c: Config) {
    forall trace, events, i: nat, ids ::
      Execution(c, trace, events) && i < |trace| && Enabled(c, trace[i], RetryBegin(ids)) ==> !Orphans(trace[i], ids)
  }

  /** The process crashes over a cancelled run with a row still queued. */
  lemma CrashOver(c: Config, p: Path, start: State, s: State, id: string) returns (longer: Path, s': State)
    requires Leads(c, p, start, s) && c.operators && TasksHaveRows(c, s) && RowsHaveTasks(c, s)
    requires s.run.Ended() && id in s.rows && s.rows[id].state.Queued?
    ensures Leads(c, longer, start, s') && CanOrphan(c, s')
  {
    var spawned := RecoveryStarts(s.rows, Queued, RecProbe, {});
    s' := s.(phase := RecoverQueued, workers := spawned, harvest := {}, listed := false, op := Idle);
    longer := Take(c, p, start, s, Crash, spawned, s');
    UncalmCrashOrphans(c, s, spawned, s');
  }

  lemma CancelOver(c: Config, p: Path, start: State, s: State, id: string) returns (longer: Path, s': State)
    requires Leads(c, p, start, s) && c.operators && TasksHaveRows(c, s) && RowsHaveTasks(c, s)
    requires s.op == Idle && s.run.RunRunning? && id in s.rows && s.rows[id].state.Queued?
    ensures Leads(c, longer, start, s') && CanOrphan(c, s')
  {
    var p1 := Then(c, p, start, s, CancelBegin);
    longer, s' := CrashOver(c, p1, start, Do(c, s, CancelBegin), id);
  }

  /** A task is queued, the run is cancelled, and the process crashes before the cancel's first row write. */
  lemma HalfCancelled(c: Config) returns (p: Path, start: State, s: State)
    requires Sound(c.tasks) && c.tasks != [] && c.operators
    ensures Init(c, start) && Leads(c, p, start, s) && CanOrphan(c, s)
  {
    var t := Root(c.tasks);
    var p1, start1, s1 := Start(c);
    start := start1;
    RootIsReady(t, StatesOf(s1.rows));
    var p2 := LaunchTask(c, p1, start, s1, t);
    p, s := CancelOver(c, p2, start, Underway(s1, t), t.id);
  }

  lemma OneOrphan(c: Config, trace: seq<State>, events: seq<Event>, i: nat, q: Path, s: State, ids: set<string>)
    requires Execution(c, trace, events) && i < |trace| && Leads(c, q, trace[i], s)
    requires Enabled(c, s, RetryBegin(ids)) && Orphans(s, ids)
    ensures !NeverOrphans(c)
  {
    Joined(c, trace, events, i, q, s);
    var joined, steps := trace[..i] + q.trace, events[..i] + q.events;
    assert Execution(c, joined, steps) && joined[i + |q.events|] == s;
  }

  lemma OrphansHappen(c: Config)
    requires Sound(c.tasks) && c.tasks != [] && c.operators
    ensures !NeverOrphans(c)
  {
    var p, start, s := HalfCancelled(c);
    PathIsExecution(c, p, start, s);
    var q, s', ids :| Leads(c, q, s, s') && Enabled(c, s', RetryBegin(ids)) && Orphans(s', ids);
    OneOrphan(c, p.trace, p.events, |p.events|, q, s', ids);
  }

  lemma RetryNeedsTasks(c: Config, s: State, ids: set<string>)
    requires RowsHaveTasks(c, s) && Enabled(c, s, RetryBegin(ids))
    ensures c.operators && c.tasks != []
  {
    DownstreamClosure.RetryIsClosed(c.tasks, s.rows, ids);
    var id :| id in ids;
    assert HasTask(c.tasks, id);
  }

  lemma RetriesNeedTasks(c: Config)
    ensures forall trace, events, i: nat, ids ::
              Execution(c, trace, events) && i < |trace| && Enabled(c, trace[i], RetryBegin(ids)) ==>
                c.operators && c.tasks != []
  {
    forall trace, events, i: nat, ids |
      Execution(c, trace, events) && i < |trace| && Enabled(c, trace[i], RetryBegin(ids))
      ensures c.operators && c.tasks != []
    {
      RowsThroughout(c, trace, events, i);
      KeysAreTasks(c, trace[0], trace[i]);
      RetryNeedsTasks(c, trace[i], ids);
    }
  }

  /** Retries are always safe for exactly the configurations without operators, and without tasks. */
  lemma NeverOrphansIff(c: Config)
    requires Sound(c.tasks)
    ensures NeverOrphans(c) <==> !c.operators || c.tasks == []
  {
    RetriesNeedTasks(c);
    if c.operators && c.tasks != [] {
      OrphansHappen(c);
    }
  }
}
