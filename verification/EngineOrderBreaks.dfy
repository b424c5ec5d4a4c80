/** When the dependency order fails: a retry that does not spare the tick's harvest, or a crash between two
    row writes of a retry, can be followed by a task at work over a cleared dependency; nothing else can.
    Both happen to every task list in which some task depends on another, if operators act at all. */
module EngineOrderBreaks {
  import opened BlockPropagation
  import opened Dag
  import DownstreamClosure
  import opened Engine
  import opened EngineOrder
  import opened EnginePaths
  import opened EngineShape
  import opened EngineStarts
  import opened Graph
  import opened RunStates
  import opened TaskStore
  import opened TriggerRules

  /** Some task has started, no retry is about to clear it, and a dependency of it is not successful. */
  ghost predicate Broken(c: Config, s: State) {
    exists t :: t in c.tasks && StartedTooEarly(s, t)
  }

  ghost predicate StartedTooEarly(s: State, t: Task) {
    t.id in s.rows && Started(s.rows[t.id].state) && !BeingCleared(s, t.id) && !DepsDone(s.rows, t)
  }

  lemma OrderedIsNotBroken(c: Config, s: State)
    requires Ordered(c, s)
    ensures !Broken(c, s)
  {
    forall t | t in c.tasks && t.id in s.rows && Started(s.rows[t.id].state) && !BeingCleared(s, t.id)
      ensures DepsDone(s.rows, t)
    {
      assert Bound(s, t);
    }
  }

  /** With steps that keep the order themselves. */
  ghost predicate CanBreak(c: Config, s: State) {
    exists p, s' :: Leads(c, p, s, s') && AllKeepOrder(c, p.trace, p.events) && Broken(c, s')
  }

  lemma {:induction false} OrderAlong(c: Config, p: Path, start: State, s: State, i: nat)
    requires DistinctIds(c.tasks) && AllSuccessRules(c) && !c.marks
    requires Leads(c, p, start, s) && AllKeepOrder(c, p.trace, p.events) && i < |p.trace|
    requires Shape(start) && Ordered(c, start) && !start.op.Marking?
    ensures Ordered(c, p.trace[i]) && !p.trace[i].op.Marking?
    decreases i
  {
    if i > 0 {
      OrderAlong(c, p, start, s, i - 1);
      ShapeAlong(c, p, start, s, i - 1);
      assert Next(c, p.trace[i - 1], p.events[i - 1].step, p.events[i - 1].spawned, p.trace[i]);
      OrderNext(c, p.trace[i - 1], p.events[i - 1].step, p.events[i - 1].spawned, p.trace[i]);
    }
  }

  lemma OrderedCannotBreak(c: Config, s: State)
    requires DistinctIds(c.tasks) && AllSuccessRules(c) && !c.marks
    requires Shape(s) && Ordered(c, s) && !s.op.Marking?
    ensures !CanBreak(c, s)
  {
    forall p, s' | Leads(c, p, s, s') && AllKeepOrder(c, p.trace, p.events) ensures !Broken(c, s') {
      OrderAlong(c, p, s, s', |p.events|);
      OrderedIsNotBroken(c, s');
    }
  }

  lemma TameKeepsOrder(c: Config, trace: seq<State>, events: seq<Event>)
    requires Tame(events)
    ensures AllKeepOrder(c, trace, events)
  {
    forall i | 0 <= i < |events| && i < |trace| ensures KeepsOrder(c, trace[i], events[i].step) {
      assert events[i] in events;
    }
  }

  // ---- a retry that reaches into the harvest ----

  lemma AdmitNow(c: Config, p: Path, start: State, s: State, t: Task) returns (longer: Path, s': State)
    requires Leads(c, p, start, s) && Tame(p.events) && s.phase.Ticking? && s.op == Idle
    requires t in c.tasks && t.id in s.harvest && t.id in s.rows && s.rows[t.id].state.Scheduled?
    requires exists d :: d in t.deps && d in s.rows && d != t.id && !s.rows[d].state.Success?
    ensures Leads(c, longer, start, s') && Tame(longer.events) && Broken(c, s')
  {
    var w := FreshIndex(s.workers.Keys);
    longer := Then(c, p, start, s, Admit(t.id, w));
    s' := Do(c, s, Admit(t.id, w));
    assert StartedTooEarly(s', t);
  }

  /** The retry runs to its end, and the tick still admits the task it has picked. */
  lemma AdmitTooEarly(c: Config, p: Path, start: State, s: State, t: Task, d: string) returns (longer: Path, s': State)
    requires Leads(c, p, start, s) && Tame(p.events) && s.op.Reopening? && s.op.todo.Keys <= s.rows.Keys
    requires s.phase.Ticking? && t in c.tasks && d in t.deps && t.id in s.harvest
    requires t.id in s.op.todo && d in s.op.todo && d != t.id
    ensures Leads(c, longer, start, s') && Tame(longer.events) && Broken(c, s')
  {
    var p1, s1 := ClearAll(c, p, start, s);
    var p2 := Then(c, p1, start, s1, Reopen);
    longer, s' := AdmitNow(c, p2, start, Do(c, s1, Reopen), t);
  }

  lemma UnsafeRetryBreaks(c: Config, s: State, ids: set<string>, t: Task, d: string)
    requires Shape(s) && Enabled(c, s, RetryBegin(ids))
    requires t in c.tasks && d in t.deps && d in ids && t.id in s.rows && t.id in s.harvest && d != t.id
    ensures CanBreak(c, Do(c, s, RetryBegin(ids)))
  {
    var s1 := Do(c, s, RetryBegin(ids));
    DownstreamClosure.RetryIsClosed(c.tasks, s.rows, ids);
    assert t.id in ids;
    var p := Stay(c, s1);
    var longer, s' := AdmitTooEarly(c, p, s1, s1, t, d);
    TameKeepsOrder(c, longer.trace, longer.events);
  }

  lemma NotItsOwnDep(tasks: seq<Task>, t: Task, d: string)
    requires DistinctIds(tasks) && Acyclic(AdjOf(tasks)) && t in tasks && d in t.deps
    ensures d != t.id
  {
    AdjOfDistinct(tasks);
    var i :| 0 <= i < |tasks| && tasks[i] == t;
    var loop := [t.id, t.id];
    assert !IsCycle(AdjOf(tasks), loop);
    assert t.id in t.deps ==> Edge(AdjOf(tasks), t.id, t.id);
  }

  /** Where the order holds, beginning a retry makes its failure possible if and only if it does not spare
      the harvest. */
  lemma RetryBreaksOrderIff(c: Config, s: State, ids: set<string>)
    requires Sound(c.tasks) && AllSuccessRules(c) && !c.marks
    requires Shape(s) && Ordered(c, s) && Enabled(c, s, RetryBegin(ids))
    ensures CanBreak(c, Do(c, s, RetryBegin(ids))) <==> !SparesHarvest(c, s, ids)
  {
    var s' := Do(c, s, RetryBegin(ids));
    if SparesHarvest(c, s, ids) {
      RetryKeepsOrderIff(c, s, ids);
      ShapeNext(c, s, RetryBegin(ids), map[], s');
      OrderedCannotBreak(c, s');
    } else {
      var t, d :| t in c.tasks && d in t.deps && d in ids && t.id in s.rows && t.id in s.harvest;
      NotItsOwnDep(c.tasks, t, d);
      UnsafeRetryBreaks(c, s, ids, t, d);
    }
  }

  // ---- a crash inside a retry ----

  lemma UnsafeCrashBreaks(c: Config, s: State, spawned: map<nat, Worker>, s': State)
    requires Ordered(c, s) && Next(c, s, Crash, spawned, s') && !ClearedFromBelow(c, s)
    ensures Broken(c, s')
  {
    var t, d :| t in c.tasks && d in t.deps && d in s.op.cleared && t.id in s.op.todo &&
                t.id in s.rows && Started(s.rows[t.id].state);
    assert StartedTooEarly(s', t);
  }

  /** Where the order holds, a crash makes its failure possible, in fact breaks it, if and only if it comes
      between clearing a task and clearing a started dependent of it. */
  lemma CrashBreaksOrderIff(c: Config, s: State, spawned: map<nat, Worker>, s': State)
    requires DistinctIds(c.tasks) && AllSuccessRules(c) && !c.marks
    requires Shape(s) && Ordered(c, s) && Next(c, s, Crash, spawned, s')
    ensures CanBreak(c, s') <==> !ClearedFromBelow(c, s)
    ensures Broken(c, s') <==> !ClearedFromBelow(c, s)
  {
    if ClearedFromBelow(c, s) {
      CrashKeepsOrderIff(c, s, spawned, s');
      ShapeNext(c, s, Crash, spawned, s');
      OrderedCannotBreak(c, s');
      OrderedIsNotBroken(c, s');
    } else {
      UnsafeCrashBreaks(c, s, spawned, s');
      var p := Stay(c, s');
      TameKeepsOrder(c, p.trace, p.events);
    }
  }

  // ---- both happen ----

  lemma CancelRun(c: Config, p: Path, start: State, s: State) returns (longer: Path, s': State)
    requires Leads(c, p, start, s) && Tame(p.events) && c.operators && s.op == Idle && s.run == RunRunning
    ensures Leads(c, longer, start, s') && Tame(longer.events) && s'.op == Idle && s'.run == RunCancelled
    ensures s'.phase == s.phase && s'.harvest == s.harvest && s'.rows.Keys == s.rows.Keys
    ensures forall id :: id in s.rows && s.rows[id].state.IsTerminal() ==> s'.rows[id] == s.rows[id]
  {
    var p1 := Then(c, p, start, s, CancelBegin);
    longer, s' := CancelAll(c, p1, start, Do(c, s, CancelBegin));
  }

  lemma ReadyOnceDepsDone(c: Config, s: State, t: Task)
    requires AllSuccessRules(c) && t in c.tasks && DepsDone(s.rows, t)
    ensures TaskReady(t, StatesOf(s.rows))
  {
    var gate := GateStates(t, StatesOf(s.rows));
    forall k | 0 <= k < |gate| ensures gate[k].Success? {
      assert t.deps[k] in t.deps;
    }
  }

  /** Without any crash: a task is harvested; before it is admitted the run is cancelled and its dependency is
      retried with it. The tick still admits the task, over a dependency that has to run again. */
  lemma RetryInsideTickBreaksOrder(c: Config) returns (p: Path, start: State, s: State)
    requires Sound(c.tasks) && AllSuccessRules(c) && c.operators && exists t :: t in c.tasks && t.deps != []
    ensures Init(c, start) && Leads(c, p, start, s) && Broken(c, s)
    ensures forall e :: e in p.events ==> !e.step.Crash?
  {
    var t := Dependent(c.tasks);
    var d := t.deps[0];
    var p0, start0, s0 := DepsSucceed(c, t);
    start := start0;
    ReadyOnceDepsDone(c, s0, t);
    var p1 := Then(c, p0, start, s0, Harvest(t));
    var p2, s2 := CancelRun(c, p1, start, Do(c, s0, Harvest(t)));
    var p3, s3 := BeginRetry(c, p2, start, s2, t, d);
    var q := Stay(c, s3);
    var rest, last := AdmitTooEarly(c, q, s3, s3, t, d);
    s := last;
    p := Glue(c, p3, start, s3, rest, last);
  }

  /** RetryTask of a dependency, which clears what depends on it too. */
  lemma BeginRetry(c: Config, p: Path, start: State, s: State, t: Task, d: string) returns (longer: Path, s': State)
    requires Leads(c, p, start, s) && c.operators && s.op == Idle && s.run.Ended()
    requires ClosedDeps(c.tasks) && (forall u :: u in c.tasks ==> u.id in s.rows) && t in c.tasks && d in t.deps
    ensures Leads(c, longer, start, s') && s' == s.(op := s'.op) && s'.op.Reopening? && s'.op.cleared == {}
    ensures s'.op.todo == Restrict(s.rows, s'.op.todo.Keys) && d in s'.op.todo && t.id in s'.op.todo
    ensures longer.events == p.events + [Event(RetryBegin(s'.op.todo.Keys), map[])]
    ensures longer.trace == p.trace + [s']
  {
    DepIsTask(c.tasks, t, d);
    var ids := DownstreamClosure.TaskClosure(c.tasks, d);
    longer := Then(c, p, start, s, RetryBegin(ids));
    s' := Do(c, s, RetryBegin(ids));
    assert s'.op.todo.Keys == ids;
  }

  lemma DepIsTask(tasks: seq<Task>, t: Task, d: string)
    requires ClosedDeps(tasks) && t in tasks && d in t.deps
    ensures d in Ids(tasks)
  {
    var i :| 0 <= i < |tasks| && tasks[i] == t;
    assert HasTask(tasks, d);
  }

  ghost predicate RetriesSpareHarvest(c: Config, p: Path) {
    forall i :: 0 <= i < |p.events| && i < |p.trace| && p.events[i].step.RetryBegin? ==>
      SparesHarvest(c, p.trace[i], p.events[i].step.ids)
  }

  /** What the retry has cleared stays cleared, and the rest is left as it is. */
  lemma CrashHalfWay(c: Config, p: Path, start: State, s: State, d: string) returns (longer: Path, s': State)
    requires Leads(c, p, start, s) && s.op.Reopening? && d in s.op.todo && d in s.rows
    ensures Leads(c, longer, start, s') && s'.op == Idle && s'.rows == s.rows[d := Cleared(s.op.todo[d])]
    ensures p.trace <= longer.trace && |longer.events| == |p.events| + 2 && p.events <= longer.events
    ensures !longer.events[|p.events|].step.RetryBegin? && !longer.events[|p.events| + 1].step.RetryBegin?
  {
    var s1 := Do(c, s, ClearWrite(d));
    var p1 := Then(c, p, start, s, ClearWrite(d));
    var spawned := RecoveryStarts(s1.rows, Queued, RecProbe, {});
    s' := s1.(phase := RecoverQueued, workers := spawned, harvest := {}, listed := false, op := Idle);
    longer := Take(c, p1, start, s1, Crash, spawned, s');
  }

  lemma TameByIndex(events: seq<Event>)
    requires Tame(events)
    ensures forall i :: 0 <= i < |events| ==> !events[i].step.RetryBegin?
  {
    forall i | 0 <= i < |events| ensures !events[i].step.RetryBegin? {
      assert events[i] in events;
    }
  }

  /** The task has been skipped, and the run cancelled; nothing is harvested. */
  lemma SkipAndCancel(c: Config, t: Task) returns (p: Path, start: State, s: State)
    requires DistinctIds(c.tasks) && AllSuccessRules(c) && c.operators
    requires t in c.tasks && forall d :: d in t.deps ==> IsRoot(c.tasks, d) && d != t.id
    ensures Init(c, start) && Leads(c, p, start, s) && Tame(p.events)
    ensures s.op == Idle && s.run.Ended() && s.harvest == {}
    ensures (forall u :: u in c.tasks ==> u.id in s.rows) && s.rows[t.id].state.Skipped? && DepsDone(s.rows, t)
  {
    var p0, start0, s0 := DepsSucceed(c, t);
    start := start0;
    ReadyOnceDepsDone(c, s0, t);
    var p1 := Then(c, p0, start, s0, SkipReady(t));
    p, s := CancelRun(c, p1, start, Do(c, s0, SkipReady(t)));
  }

  /** The only retry begins where nothing is harvested. */
  lemma OnlyRetrySpares(c: Config, p: Path, longer: Path, s: State)
    requires Tame(p.events) && s.harvest == {} && |longer.events| == |p.events| + 3 && p.events <= longer.events
    requires |longer.trace| > |p.events| && longer.trace[|p.events|] == s
    requires !longer.events[|p.events| + 1].step.RetryBegin? && !longer.events[|p.events| + 2].step.RetryBegin?
    ensures RetriesSpareHarvest(c, longer)
  {
    TameByIndex(p.events);
  }

  /** With every retry sparing the harvest: a crash between two row writes of one leaves the dependency cleared
      and the skipped task over it. */
  lemma CrashInsideRetryBreaksOrder(c: Config) returns (p: Path, start: State, s: State)
    requires Sound(c.tasks) && AllSuccessRules(c) && c.operators && exists t :: t in c.tasks && t.deps != []
    ensures Init(c, start) && Leads(c, p, start, s) && Broken(c, s) && RetriesSpareHarvest(c, p)
  {
    var t := Dependent(c.tasks);
    var p1, start1, s1 := SkipAndCancel(c, t);
    start := start1;
    var d := t.deps[0];
    var p2, s2 := BeginRetry(c, p1, start, s1, t, d);
    p, s := CrashHalfWay(c, p2, start, s2, d);
    assert StartedTooEarly(s, t);
    OnlyRetrySpares(c, p1, p, s1);
  }

  // ---- which configurations keep the order ----

  ghost predicate OrderHolds(c: Config) {
    forall trace, events, i: nat :: Execution(c, trace, events) && i < |trace| ==> !Broken(c, trace[i])
  }

  predicate NotOperated(s: State) {
    s.op.Idle? || s.op.TimingOut?
  }

  lemma {:induction false} NotOperatedThroughout(c: Config, trace: seq<State>, events: seq<Event>, i: nat)
    requires Execution(c, trace, events) && !c.operators && i < |trace|
    ensures NotOperated(trace[i])
    decreases i
  {
    if i > 0 {
      NotOperatedThroughout(c, trace, events, i - 1);
      ShapeThroughout(c, trace, events, i - 1);
      assert Next(c, trace[i - 1], events[i - 1].step, events[i - 1].spawned, trace[i]);
      if IsWorkerStep(events[i - 1].step) {
        StepEffect(c, trace[i - 1], events[i - 1].step);
      }
    }
  }

  lemma NoOperatorsKeepOrder(c: Config, trace: seq<State>, events: seq<Event>)
    requires Execution(c, trace, events) && !c.operators
    ensures AllKeepOrder(c, trace, events)
  {
    forall i | 0 <= i < |events| && i < |trace| ensures KeepsOrder(c, trace[i], events[i].step) {
      NotOperatedThroughout(c, trace, events, i);
      assert Next(c, trace[i], events[i].step, events[i].spawned, trace[i + 1]);
    }
  }

  lemma OrderFails(c: Config)
    requires Sound(c.tasks) && AllSuccessRules(c) && c.operators && exists t :: t in c.tasks && t.deps != []
    ensures !OrderHolds(c)
  {
    var p, start, s := RetryInsideTickBreaksOrder(c);
    PathIsExecution(c, p, start, s);
  }

  /** The order holds in every execution for exactly the configurations without operators, and those in which
      no task depends on another. */
  lemma OrderHoldsIff(c: Config)
    requires Sound(c.tasks) && AllSuccessRules(c) && !c.marks
    ensures OrderHolds(c) <==> !c.operators || forall t :: t in c.tasks ==> t.deps == []
  {
    if t :| t in c.tasks && t.deps != [] && c.operators {
      OrderFails(c);
    } else {
      forall trace, events, i: nat | Execution(c, trace, events) && i < |trace| ensures !Broken(c, trace[i]) {
        if !c.operators {
          NoOperatorsKeepOrder(c, trace, events);
          OrderThroughout(c, trace, events, i);
          OrderedIsNotBroken(c, trace[i]);
        }
      }
    }
  }
}
