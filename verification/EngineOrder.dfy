/** Dependency order, over every interleaving of module Engine: with all_success rules and no marks, a
    task is under way, or over by itself, only while every task upstream of it is successful.

    Cancels, retries, timeouts, crashes and a forgetful executor are all allowed. Two steps can break the
    order, and exactly when they do is proved: a retry that clears a dependency of a task the tick has
    harvested, and a crash in the middle of a retry that comes between clearing a task and clearing a
    started dependent of it. */
module EngineOrder {
  import opened BlockPropagation
  import opened Dag
  import DownstreamClosure
  import opened Engine
  import opened EngineShape
  import opened Graph
  import opened TaskStore
  import opened TriggerRules

  /** The task has started, or was passed over on purpose once it could have started. */
  predicate Started(state: TaskState) {
    InFlight(state) || state.Success? || state.Failed? || state.Skipped?
  }

  ghost predicate AllSuccessRules(c: Config) {
    forall t :: t in c.tasks ==> t.rule == AllSuccess
  }

  ghost predicate DepsDone(rows: map<string, Row>, t: Task) {
    forall d :: d in t.deps ==> d in rows && rows[d].state.Success?
  }

  /** A retry still has to clear this row. */
  predicate BeingCleared(s: State, id: string) {
    s.op.Reopening? && id in s.op.todo
  }

  /** Harvested, or started and not about to be cleared. */
  predicate Bound(s: State, t: Task) {
    t.id in s.rows && (t.id in s.harvest || (Started(s.rows[t.id].state) && !BeingCleared(s, t.id)))
  }

  ghost predicate DepsBefore(c: Config, s: State) {
    forall t :: t in c.tasks && Bound(s, t) ==> DepsDone(s.rows, t)
  }

  /** A cancel may still overwrite these rows, whatever they have become since it read them. */
  ghost predicate CancelSpares(c: Config, s: State) {
    s.op.Cancelling? ==>
      forall t, d :: t in c.tasks && d in t.deps && d in s.op.todo ==> !Bound(s, t)
  }

  /** A dependency is cleared only under tasks that are not bound to it. */
  ghost predicate RetrySpares(c: Config, s: State) {
    s.op.Reopening? ==>
      forall t, d :: t in c.tasks && d in t.deps && d in s.op.todo ==> !Bound(s, t)
  }

  /** What a retry has cleared is scheduled, and a started task it has still to clear has lost only
      dependencies that were cleared. */
  ghost predicate HalfCleared(c: Config, s: State) {
    s.op.Reopening? ==>
      && (forall d :: d in s.op.cleared ==> d in s.rows && s.rows[d].state.Scheduled?)
      && (forall t, d ::
            t in c.tasks && d in t.deps && t.id in s.rows && Started(s.rows[t.id].state) && d !in s.op.cleared ==>
              d in s.rows && s.rows[d].state.Success?)
  }

  ghost predicate Ordered(c: Config, s: State) {
    DepsBefore(c, s) && CancelSpares(c, s) && RetrySpares(c, s) && HalfCleared(c, s)
  }

  /** No task that the tick has harvested depends on a task that the retry clears. */
  ghost predicate SparesHarvest(c: Config, s: State, ids: set<string>) {
    forall t, d :: t in c.tasks && d in t.deps && d in ids && t.id in s.rows ==> t.id !in s.harvest
  }

  /** No started task that the retry has still to clear depends on one that it has cleared. */
  ghost predicate ClearedFromBelow(c: Config, s: State) {
    s.op.Reopening? ==>
      forall t, d :: t in c.tasks && d in t.deps && d in s.op.cleared && t.id in s.op.todo ==>
        !(t.id in s.rows && Started(s.rows[t.id].state))
  }

  /** Neither of the two steps that break the order. */
  ghost predicate KeepsOrder(c: Config, s: State, step: Step) {
    && (step.RetryBegin? ==> SparesHarvest(c, s, step.ids))
    && (step.Crash? ==> ClearedFromBelow(c, s))
  }

  ghost predicate NothingNew(c: Config, s: State, s': State) {
    forall t :: t in c.tasks && Bound(s', t) ==> Bound(s, t)
  }

  ghost predicate SuccessKept(s: State, s': State) {
    forall id :: id in s.rows && s.rows[id].state.Success? ==> id in s'.rows && s'.rows[id].state.Success?
  }

  /** Outside a retry: nobody new is bound, and no success is lost. */
  lemma OrderKept(c: Config, s: State, s': State)
    requires Ordered(c, s) && NothingNew(c, s, s') && SuccessKept(s, s') && !s'.op.Reopening?
    requires s'.op.Cancelling? ==> s.op.Cancelling? && s'.op.todo.Keys <= s.op.todo.Keys
    ensures Ordered(c, s')
  {
    forall t | t in c.tasks && Bound(s', t) ensures DepsDone(s'.rows, t) {
      assert DepsDone(s.rows, t);
    }
  }

  lemma OrderInit(c: Config, s: State)
    requires Init(c, s)
    ensures Ordered(c, s)
  {
    forall t | t in c.tasks ensures !Bound(s, t) {
      assert s.rows[t.id].state == Scheduled;
    }
  }

  lemma ReadyMeansDone(c: Config, s: State, t: Task)
    requires AllSuccessRules(c) && t in c.tasks && TaskReady(t, StatesOf(s.rows))
    ensures DepsDone(s.rows, t)
  {
    var gate := GateStates(t, StatesOf(s.rows));
    forall d | d in t.deps ensures d in s.rows && s.rows[d].state.Success? {
      var k :| 0 <= k < |t.deps| && t.deps[k] == d;
      assert gate[k].Success?;
    }
  }

  /** Only `t` may have become bound, and its dependencies are done. */
  lemma OrderPicks(c: Config, s: State, s': State, t: Task)
    requires Ordered(c, s) && s.op == Idle && s'.op == Idle && SuccessKept(s, s') && DepsDone(s.rows, t)
    requires forall u :: u in c.tasks && u != t && Bound(s', u) ==> Bound(s, u)
    ensures Ordered(c, s')
  {
    forall u | u in c.tasks && Bound(s', u) ensures DepsDone(s'.rows, u) {
      assert u != t ==> DepsDone(s.rows, u);
    }
  }

  lemma OrderPicking(c: Config, s: State, step: Step)
    requires DistinctIds(c.tasks) && AllSuccessRules(c) && Ordered(c, s) && Enabled(c, s, step)
    requires step.Harvest? || step.SkipReady? || step.FailReady?
    ensures Ordered(c, Do(c, s, step))
  {
    var s', t := Do(c, s, step), step.t;
    ReadyMeansDone(c, s, t);
    forall u | u in c.tasks && u != t && Bound(s', u) ensures Bound(s, u) {
      assert u.id != t.id;
    }
    OrderPicks(c, s, s', t);
  }

  lemma OrderScheduling(c: Config, s: State, step: Step)
    requires Ordered(c, s) && Enabled(c, s, step)
    requires step.StartRun? || step.Block? || step.Requeue? || step.EndTick? || step.FinalizeRun? || step.Admit?
    ensures Ordered(c, Do(c, s, step))
  {
    var s' := Do(c, s, step);
    assert SuccessKept(s, s');
    forall t | t in c.tasks && Bound(s', t) ensures Bound(s, t) {}
    OrderKept(c, s, s');
  }

  /** A goroutine starts no task, and neither schedules nor takes back a success. */
  lemma WorkerStartsNothing(s: State, w: nat, s': State, id: string)
    requires Shape(s) && WorkerEffect(s, w, s') && id in s'.rows
    ensures id in s.rows && (Started(s'.rows[id].state) ==> Started(s.rows[id].state))
    ensures s.rows[id].state.Success? ==> s'.rows[id].state.Success?
    ensures s.rows[id].state.Scheduled? ==> s'.rows[id].state.Scheduled?
  {
    assert RowShape(s.rows[s.workers[w].task]);
  }

  lemma RetryUnderWorker(c: Config, s: State, w: nat, s': State)
    requires Shape(s) && WorkerEffect(s, w, s') && HalfCleared(c, s) && s.op.Reopening?
    ensures HalfCleared(c, s')
  {
    forall d | d in s'.op.cleared ensures d in s'.rows && s'.rows[d].state.Scheduled? {
      WorkerStartsNothing(s, w, s', d);
    }
    forall t, d | t in c.tasks && d in t.deps && t.id in s'.rows && Started(s'.rows[t.id].state) && d !in s'.op.cleared
      ensures d in s'.rows && s'.rows[d].state.Success?
    {
      WorkerStartsNothing(s, w, s', t.id);
      WorkerStartsNothing(s, w, s', d);
    }
  }

  lemma OrderWorker(c: Config, s: State, w: nat, s': State)
    requires Ordered(c, s) && Shape(s) && WorkerEffect(s, w, s')
    ensures Ordered(c, s')
  {
    assert SuccessKept(s, s') && NothingNew(c, s, s');
    if s.op.Reopening? {
      RetryUnderWorker(c, s, w, s');
      forall t | t in c.tasks && Bound(s', t) ensures DepsDone(s'.rows, t) {
        assert DepsDone(s.rows, t);
      }
    } else {
      OrderKept(c, s, s');
    }
  }

  lemma OrderCancelBegin(c: Config, s: State)
    requires Ordered(c, s) && Enabled(c, s, CancelBegin)
    ensures Ordered(c, Do(c, s, CancelBegin))
  {
    var s' := Do(c, s, CancelBegin);
    forall t, d | t in c.tasks && d in t.deps && d in s'.op.todo ensures !Bound(s', t) {
      assert !s.rows[d].state.Success?;
      assert Bound(s, t) ==> DepsDone(s.rows, t);
    }
    forall t | t in c.tasks && Bound(s', t) ensures DepsDone(s'.rows, t) {
      assert Bound(s, t);
    }
  }

  lemma OrderCancelWrite(c: Config, s: State, id: string)
    requires Ordered(c, s) && Enabled(c, s, OpWrite(id)) && s.op.Cancelling?
    ensures Ordered(c, Do(c, s, OpWrite(id)))
  {
    var s' := Do(c, s, OpWrite(id));
    forall t | t in c.tasks && Bound(s', t) ensures DepsDone(s'.rows, t) {
      assert Bound(s, t);
      assert id !in t.deps;
    }
    forall t, d | t in c.tasks && d in t.deps && d in s'.op.todo ensures !Bound(s', t) {
      assert d in s.op.todo && !Bound(s, t);
    }
  }

  /** Beginning a retry keeps the order if and only if it spares the harvest. */
  lemma RetryKeepsOrderIff(c: Config, s: State, ids: set<string>)
    requires Ordered(c, s) && Enabled(c, s, RetryBegin(ids))
    ensures Ordered(c, Do(c, s, RetryBegin(ids))) <==> SparesHarvest(c, s, ids)
  {
    var s' := Do(c, s, RetryBegin(ids));
    assert s'.op.todo.Keys == ids;
    DownstreamClosure.RetryIsClosed(c.tasks, s.rows, ids);
    if SparesHarvest(c, s, ids) {
      forall t | t in c.tasks && Bound(s', t) ensures DepsDone(s'.rows, t) {
        assert Bound(s, t);
      }
      forall t, d | t in c.tasks && d in t.deps && t.id in s.rows && Started(s.rows[t.id].state)
        ensures d in s.rows && s.rows[d].state.Success?
      {
        assert Bound(s, t) && DepsDone(s.rows, t);
      }
      forall t, d | t in c.tasks && d in t.deps && d in s'.op.todo ensures !Bound(s', t) {
        assert t.id in ids;
      }
    } else {
      var t, d :| t in c.tasks && d in t.deps && d in ids && t.id in s.rows && t.id in s.harvest;
      assert Bound(s', t) && d in s'.op.todo;
    }
  }

  lemma OrderClearWrite(c: Config, s: State, id: string)
    requires Ordered(c, s) && Enabled(c, s, ClearWrite(id)) && s.op.Reopening?
    ensures Ordered(c, Do(c, s, ClearWrite(id)))
  {
    var s' := Do(c, s, ClearWrite(id));
    assert s'.rows[id].state.Scheduled?;
    forall t | t in c.tasks && Bound(s', t) ensures Bound(s, t) && DepsDone(s'.rows, t) {
      assert Bound(s, t) && DepsDone(s.rows, t);
      assert id !in t.deps;
    }
    forall t, d | t in c.tasks && d in t.deps && d in s'.op.todo ensures !Bound(s', t) {
      assert d in s.op.todo;
    }
  }

  lemma OrderReopen(c: Config, s: State)
    requires Ordered(c, s) && Enabled(c, s, Reopen)
    ensures Ordered(c, Do(c, s, Reopen))
  {
    var s' := Do(c, s, Reopen);
    forall t | t in c.tasks && Bound(s', t) ensures DepsDone(s'.rows, t) {
      assert Bound(s, t);
    }
  }

  lemma OrderRetry(c: Config, s: State, step: Step)
    requires Ordered(c, s) && Enabled(c, s, step) && KeepsOrder(c, s, step) && !s.op.Marking?
    requires step.RetryBegin? || step.ClearWrite? || step.Reopen?
    ensures Ordered(c, Do(c, s, step))
  {
    if step.RetryBegin? {
      RetryKeepsOrderIff(c, s, step.ids);
    } else if step.ClearWrite? {
      OrderClearWrite(c, s, step.id);
    } else {
      OrderReopen(c, s);
    }
  }

  lemma OrderOperation(c: Config, s: State, step: Step)
    requires Ordered(c, s) && Enabled(c, s, step) && IsOperation(step) && !c.marks && KeepsOrder(c, s, step)
    requires !s.op.Marking?
    ensures Ordered(c, Do(c, s, step))
  {
    if step.RetryBegin? || step.ClearWrite? || step.Reopen? {
      OrderRetry(c, s, step);
    } else if step.CancelBegin? {
      OrderCancelBegin(c, s);
    } else if step.OpWrite? && s.op.Cancelling? {
      OrderCancelWrite(c, s, step.id);
    } else {
      var s' := Do(c, s, step);
      assert SuccessKept(s, s');
      OrderKept(c, s, s');
    }
  }

  /** A crash keeps the order if and only if it does not come between clearing a task and clearing a started
      dependent of it. */
  lemma CrashKeepsOrderIff(c: Config, s: State, spawned: map<nat, Worker>, s': State)
    requires Ordered(c, s) && Next(c, s, Crash, spawned, s')
    ensures Ordered(c, s') <==> ClearedFromBelow(c, s)
  {
    if ClearedFromBelow(c, s) {
      forall t | t in c.tasks && Bound(s', t) ensures DepsDone(s'.rows, t) {
        if Bound(s, t) {
          assert DepsDone(s.rows, t);
        } else {
          forall d | d in t.deps ensures d in s.rows && s.rows[d].state.Success? {
            assert d !in s.op.cleared;
          }
        }
      }
    } else {
      var t, d :| t in c.tasks && d in t.deps && d in s.op.cleared && t.id in s.op.todo &&
                  t.id in s.rows && Started(s.rows[t.id].state);
      assert Bound(s', t) && !s'.rows[d].state.Success?;
    }
  }

  lemma OrderNext(c: Config, s: State, step: Step, spawned: map<nat, Worker>, s': State)
    requires DistinctIds(c.tasks) && AllSuccessRules(c) && !c.marks && KeepsOrder(c, s, step)
    requires Shape(s) && Ordered(c, s) && !s.op.Marking? && Next(c, s, step, spawned, s')
    ensures Ordered(c, s') && !s'.op.Marking?
  {
    if IsWorkerStep(step) {
      StepEffect(c, s, step);
      OrderWorker(c, s, step.w, s');
    } else if step.Harvest? || step.SkipReady? || step.FailReady? {
      OrderPicking(c, s, step);
    } else if IsOperation(step) {
      OrderOperation(c, s, step);
    } else if (IsSchedulingStep(step) && !step.ListRun?) || step.Admit? {
      OrderScheduling(c, s, step);
    } else if step.Crash? {
      CrashKeepsOrderIff(c, s, spawned, s');
    } else {
      SameRowsKeepOrder(c, s, s');
    }
  }

  lemma SameRowsKeepOrder(c: Config, s: State, s': State)
    requires Ordered(c, s) && s'.rows == s.rows && s'.harvest == s.harvest && s'.op == s.op
    ensures Ordered(c, s')
  {
    forall t | t in c.tasks && Bound(s', t) ensures Bound(s, t) && DepsDone(s'.rows, t) {
      assert Bound(s, t);
    }
  }

  ghost predicate AllKeepOrder(c: Config, trace: seq<State>, events: seq<Event>) {
    forall i :: 0 <= i < |events| && i < |trace| ==> KeepsOrder(c, trace[i], events[i].step)
  }

  lemma OrderStep(c: Config, trace: seq<State>, events: seq<Event>, i: nat)
    requires Execution(c, trace, events) && AllKeepOrder(c, trace, events) && i < |events|
    requires DistinctIds(c.tasks) && AllSuccessRules(c) && !c.marks
    requires Ordered(c, trace[i]) && !trace[i].op.Marking?
    ensures Ordered(c, trace[i + 1]) && !trace[i + 1].op.Marking?
  {
    ShapeThroughout(c, trace, events, i);
    assert KeepsOrder(c, trace[i], events[i].step);
    OrderNext(c, trace[i], events[i].step, events[i].spawned, trace[i + 1]);
  }

  lemma {:induction false} OrderThroughout(c: Config, trace: seq<State>, events: seq<Event>, i: nat)
    requires Execution(c, trace, events) && AllKeepOrder(c, trace, events) && i < |trace|
    requires DistinctIds(c.tasks) && AllSuccessRules(c) && !c.marks
    ensures Ordered(c, trace[i]) && !trace[i].op.Marking?
    decreases i
  {
    if i == 0 {
      OrderInit(c, trace[0]);
    } else {
      OrderThroughout(c, trace, events, i - 1);
      OrderStep(c, trace, events, i - 1);
    }
  }

  lemma {:induction false} UpstreamDone(c: Config, s: State, path: seq<string>)
    requires DistinctIds(c.tasks) && Ordered(c, s)
    requires IsPath(AdjOf(c.tasks), path) && |path| >= 2 && path[0] in s.rows
    requires Started(s.rows[path[0]].state) && !BeingCleared(s, path[0])
    ensures path[|path| - 1] in s.rows && s.rows[path[|path| - 1]].state.Success?
    decreases |path|
  {
    AdjOfDistinct(c.tasks);
    assert Edge(AdjOf(c.tasks), path[0], path[1]);
    var i :| 0 <= i < |c.tasks| && c.tasks[i].id == path[0];
    assert c.tasks[i] in c.tasks && Bound(s, c.tasks[i]);
    assert path[1] in c.tasks[i].deps;
    assert path[1] in s.rows && s.rows[path[1]].state.Success? && !BeingCleared(s, path[1]);
    if |path| > 2 {
      var rest := path[1..];
      forall k | 0 <= k < |rest| - 1 ensures Edge(AdjOf(c.tasks), rest[k], rest[k + 1]) {
        assert Edge(AdjOf(c.tasks), path[k + 1], path[k + 2]);
      }
      UpstreamDone(c, s, rest);
    }
  }

  /** In every reachable state, a queued, running, up_for_retry, successful, failed or skipped task that no
      retry is about to clear has every transitive upstream task successful: over all executions whose
      retries spare the harvest and whose crashes do not cut a retry short above a started task. */
  lemma DependencyOrder(c: Config, trace: seq<State>, events: seq<Event>, i: nat, path: seq<string>)
    requires Execution(c, trace, events) && AllKeepOrder(c, trace, events) && i < |trace|
    requires DistinctIds(c.tasks) && AllSuccessRules(c) && !c.marks
    requires IsPath(AdjOf(c.tasks), path) && |path| >= 2 && path[0] in trace[i].rows
    requires Started(trace[i].rows[path[0]].state) && !BeingCleared(trace[i], path[0])
    ensures path[|path| - 1] in trace[i].rows && trace[i].rows[path[|path| - 1]].state.Success?
  {
    OrderThroughout(c, trace, events, i);
    UpstreamDone(c, trace[i], path);
  }
}
