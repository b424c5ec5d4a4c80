/** No run can wedge, over every interleaving of module Engine: from each reachable state in which no
    operator's action is half way, finitely many of the run's own steps bring it to its end. Recovery
    comes to its end first, then the goroutines do, and then the tasks, in an order that the trigger
    rules allow. */
module EngineEnds {
  import opened BlockPropagation
  import opened Dag
  import opened Engine
  import opened EnginePaths
  import opened EngineProgress
  import opened EngineShape
  import opened RunStates
  import opened TaskStore
  import opened TriggerRules

  ghost predicate Sane(s: State) {
    Shape(s) && AllFollowed(s)
  }

  lemma SaneNext(c: Config, s: State, step: Step, spawned: map<nat, Worker>, s': State)
    requires Sane(s) && Next(c, s, step, spawned, s')
    ensures Sane(s')
  {
    ShapeNext(c, s, step, spawned, s');
    FollowedNext(c, s, step, spawned, s');
  }

  // ---- a goroutine's way out ----

  predicate IsAlive(s: State, k: Key) {
    k in s.procs && s.procs[k] == Alive
  }

  /** What takes goroutine `w` nearer to its end. */
  function Turn(s: State, w: nat): Step
    requires w in s.workers && s.workers[w].task in s.rows
  {
    match s.workers[w].pc
    case Prepare => Prepared(w)
    case Check => if s.rows[s.workers[w].task].state == Cancelled then CheckStops(w) else CheckPasses(w)
    case Launch => Launched(w)
    case MarkRunning => MarksRunning(w)
    case GiveBack => GivesBack(w)
    case LaunchFailed => FailsLaunch(w)
    case Poll => if IsAlive(s, s.workers[w].AttemptKey()) then ProcExits(s.workers[w].AttemptKey(), 0) else Polls(w)
    case Finish(_) => Finishes(w)
    case FinishLost => Finishes(w)
    case RecProbe => RecProbes(w)
    case RecReset => RecResets(w)
    case RecMark => RecMarks(w)
    case RecRunning => RecPolls(w)
  }

  function Rank(s: State, w: nat): nat {
    if w !in s.workers then 0
    else
      match s.workers[w].pc
      case Prepare => 7
      case Check => 6
      case Launch => 5
      case RecProbe => 5
      case MarkRunning => 4
      case RecMark => 4
      case RecRunning => 4
      case Poll => if IsAlive(s, s.workers[w].AttemptKey()) then 3 else 2
      case _ => 1
  }

  lemma TurnIsOwn(c: Config, s: State, w: nat)
    requires w in s.workers && s.workers[w].task in s.rows
    ensures Enabled(c, s, Turn(s, w)) && Own(Turn(s, w))
    ensures Turn(s, w).ProcExits? || (IsWorkerStep(Turn(s, w)) && Turn(s, w).w == w)
  {
  }

  lemma ProbesDescend(c: Config, s: State, w: nat)
    requires w in s.workers && s.workers[w].task in s.rows
    requires var pc := s.workers[w].pc; pc.Poll? || pc.RecProbe? || pc.RecRunning?
    ensures Enabled(c, s, Turn(s, w)) && Rank(Do(c, s, Turn(s, w)), w) < Rank(s, w)
  {
  }

  lemma TurnsDescend(c: Config, s: State, w: nat)
    requires w in s.workers && s.workers[w].task in s.rows
    ensures Enabled(c, s, Turn(s, w)) && Rank(Do(c, s, Turn(s, w)), w) < Rank(s, w)
  {
    if s.workers[w].pc.Poll? || s.workers[w].pc.RecProbe? || s.workers[w].pc.RecRunning? {
      ProbesDescend(c, s, w);
    }
  }

  /** Only rows, the registry and goroutines differ, and there is no new goroutine. */
  ghost predicate Fewer(s: State, s': State) {
    && s' == s.(rows := s'.rows, procs := s'.procs, workers := s'.workers)
    && s'.rows.Keys == s.rows.Keys && s'.workers.Keys <= s.workers.Keys
  }

  lemma TurnsKeep(c: Config, s: State, w: nat)
    requires Sane(s) && w in s.workers && s.workers[w].task in s.rows
    ensures Enabled(c, s, Turn(s, w)) && Fewer(s, Do(c, s, Turn(s, w))) && Sane(Do(c, s, Turn(s, w)))
  {
    var step := Turn(s, w);
    TurnIsOwn(c, s, w);
    if !step.ProcExits? {
      StepEffect(c, s, step);
    }
    SaneNext(c, s, step, map[], Do(c, s, step));
  }

  lemma {:induction false} DrainOne(c: Config, p: Path, start: State, s: State, w: nat)
    returns (longer: Path, s': State)
    requires Leads(c, p, start, s) && AllOwn(p.events) && Sane(s)
    ensures Leads(c, longer, start, s') && AllOwn(longer.events) && Sane(s')
    ensures Fewer(s, s') && w !in s'.workers
    decreases Rank(s, w)
  {
    if w !in s.workers {
      longer, s' := p, s;
    } else {
      assert WorkerShape(s.rows, s.workers[w]);
      var step := Turn(s, w);
      TurnIsOwn(c, s, w);
      TurnsDescend(c, s, w);
      TurnsKeep(c, s, w);
      longer := Then(c, p, start, s, step);
      longer, s' := DrainOne(c, longer, start, Do(c, s, step), w);
    }
  }

  lemma {:induction false} DrainAll(c: Config, p: Path, start: State, s: State) returns (longer: Path, s': State)
    requires Leads(c, p, start, s) && AllOwn(p.events) && Sane(s)
    ensures Leads(c, longer, start, s') && AllOwn(longer.events) && Sane(s')
    ensures Fewer(s, s') && s'.workers == map[]
    decreases s.workers.Keys
  {
    if s.workers == map[] {
      longer, s' := p, s;
    } else {
      var w :| w in s.workers;
      var p1, s1 := DrainOne(c, p, start, s, w);
      longer, s' := DrainAll(c, p1, start, s1);
    }
  }

  // ---- recovery ----

  lemma Recover(c: Config, p: Path, start: State, s: State) returns (longer: Path, s': State)
    requires Leads(c, p, start, s) && AllOwn(p.events) && Sane(s) && !s.phase.Ticking?
    ensures Leads(c, longer, start, s') && AllOwn(longer.events) && Sane(s')
    ensures s'.rows.Keys == s.rows.Keys && s'.run == s.run && s'.op == s.op
    ensures s'.phase == if s.phase.RecoverQueued? then RecoverRunning else Ticking
  {
    var p1, s1 := DrainAll(c, p, start, s);
    var spawned: map<nat, Worker> := map[];
    if s.phase.RecoverQueued? {
      spawned := RecoveryStarts(s1.rows, TaskState.Running, RecRunning, {});
      s' := s1.(phase := RecoverRunning, workers := s1.workers + spawned);
    } else {
      s' := s1.(phase := Ticking);
    }
    longer := Take(c, p1, start, s1, RecoverNext, spawned, s');
    SaneNext(c, s1, RecoverNext, spawned, s');
  }

  // ---- the tasks ----

  /** The run is at work, but no goroutine is, and the tick has picked nothing. */
  predicate Resting(s: State) {
    s.phase == Ticking && s.op == Idle && s.run == RunRunning && s.workers == map[] && s.harvest == {}
  }

  ghost predicate NoneIn(s: State, ids: set<string>) {
    forall id :: id in s.rows && InFlight(s.rows[id].state) ==> id in ids
  }

  lemma FollowedMeansNone(s: State)
    requires AllFollowed(s) && Resting(s)
    ensures NoneIn(s, set id | id in s.rows && s.rows[id].state.UpForRetry?)
  {
    forall id | id in s.rows && InFlight(s.rows[id].state) ensures s.rows[id].state.UpForRetry? {
      assert RowFollowed(s, id);
    }
  }

  lemma {:induction false} RequeueAll(c: Config, p: Path, start: State, s: State, waiting: set<string>)
    returns (longer: Path, s': State)
    requires Leads(c, p, start, s) && AllOwn(p.events) && Resting(s) && NoneIn(s, waiting)
    requires forall id :: id in waiting ==> id in s.rows && s.rows[id].state.UpForRetry?
    ensures Leads(c, longer, start, s') && AllOwn(longer.events) && Resting(s') && NoneIn(s', {})
    ensures s'.rows.Keys == s.rows.Keys
    decreases waiting
  {
    if waiting == {} {
      longer, s' := p, s;
    } else {
      var id :| id in waiting;
      longer := Then(c, p, start, s, Requeue(id));
      longer, s' := RequeueAll(c, longer, start, Do(c, s, Requeue(id)), waiting - {id});
    }
  }

  function TriesLeft(row: Row): nat {
    if row.tries <= row.maxRetries then row.maxRetries - row.tries + 1 else 0
  }

  lemma AttemptDecides(s: State, t: Task)
    requires t.id in s.rows
    ensures var row := Ran(s, t).rows[t.id];
            row.state.IsTerminal() || (row.state.UpForRetry? && TriesLeft(Cleared(row)) < TriesLeft(s.rows[t.id]))
  {
  }

  /** A ready task is attempted until it is terminal, at most as often as its retries allow. */
  lemma {:induction false} RunTask(c: Config, p: Path, start: State, s: State, t: Task)
    returns (longer: Path, s': State)
    requires Leads(c, p, start, s) && AllOwn(p.events) && Resting(s)
    requires Gated(c, s, t) && TaskReady(t, StatesOf(s.rows))
    ensures Leads(c, longer, start, s') && AllOwn(longer.events) && Resting(s')
    ensures t.id in s'.rows && s'.rows == s.rows[t.id := s'.rows[t.id]] && s'.rows[t.id].state.IsTerminal()
    decreases TriesLeft(s.rows[t.id])
  {
    var s1 := Ran(s, t);
    var p1 := RunAttempt(c, p, start, s, t);
    AttemptDecides(s, t);
    if s1.rows[t.id].state.IsTerminal() {
      longer, s' := p1, s1;
    } else {
      var s2 := Do(c, s1, Requeue(t.id));
      var p2 := Then(c, p1, start, s1, Requeue(t.id));
      assert StatesOf(s2.rows) == StatesOf(s.rows);
      longer, s' := RunTask(c, p2, start, s2, t);
      assert s'.rows == s.rows[t.id := s'.rows[t.id]];
    }
  }

  function ScheduledRows(s: State): set<string> {
    set id | id in s.rows && s.rows[id].state.Scheduled?
  }

  /** With nothing left to block, some task is ready or all are terminal. */
  lemma SomethingReady(c: Config, s: State) returns (ready: seq<Task>)
    requires Sound(c.tasks)
    requires Resting(s) && NoneIn(s, {}) && Settled(c.tasks, StatesOf(s.rows))
    requires TasksHaveRows(c, s) && RowsHaveTasks(c, s)
    ensures ready == [] ==> forall id :: id in s.rows ==> s.rows[id].state.IsTerminal()
    ensures ready != [] ==> Gated(c, s, ready[0]) && TaskReady(ready[0], StatesOf(s.rows))
  {
    var st := StatesOf(s.rows);
    SettledRunProgresses(c.tasks, st);
    if i :| 0 <= i < |c.tasks| && st[c.tasks[i].id].Scheduled? && TaskReady(c.tasks[i], st) {
      ready := [c.tasks[i]];
    } else {
      ready := [];
      forall id | id in s.rows ensures s.rows[id].state.IsTerminal() {
        assert HasTask(c.tasks, id);
      }
    }
  }

  lemma BlockOne(c: Config, p: Path, start: State, s: State, t: Task) returns (longer: Path, s': State)
    requires Leads(c, p, start, s) && AllOwn(p.events) && Resting(s) && NoneIn(s, {})
    requires t in c.tasks && CanBlock(t, StatesOf(s.rows))
    ensures Leads(c, longer, start, s') && AllOwn(longer.events) && Resting(s') && NoneIn(s', {})
    ensures s'.rows.Keys == s.rows.Keys && ScheduledRows(s') < ScheduledRows(s)
  {
    s' := Do(c, s, Block(t));
    longer := Then(c, p, start, s, Block(t));
    assert t.id in ScheduledRows(s) && ScheduledRows(s') == ScheduledRows(s) - {t.id};
  }

  /** One task becomes terminal, or all tasks are. */
  lemma SettleOne(c: Config, p: Path, start: State, s: State) returns (longer: Path, s': State)
    requires Sound(c.tasks)
    requires Leads(c, p, start, s) && AllOwn(p.events) && Resting(s) && NoneIn(s, {})
    requires TasksHaveRows(c, s) && RowsHaveTasks(c, s)
    ensures Leads(c, longer, start, s') && AllOwn(longer.events) && Resting(s') && NoneIn(s', {})
    ensures s'.rows.Keys == s.rows.Keys
    ensures ScheduledRows(s') < ScheduledRows(s) ||
            (s' == s && forall id :: id in s.rows ==> s.rows[id].state.IsTerminal())
  {
    if t :| t in c.tasks && CanBlock(t, StatesOf(s.rows)) {
      longer, s' := BlockOne(c, p, start, s, t);
    } else {
      var ready := SomethingReady(c, s);
      if ready == [] {
        longer, s' := p, s;
      } else {
        longer, s' := RunTask(c, p, start, s, ready[0]);
        assert ready[0].id in ScheduledRows(s) && ScheduledRows(s') == ScheduledRows(s) - {ready[0].id};
      }
    }
  }

  lemma {:induction false} EndRun(c: Config, p: Path, start: State, s: State) returns (longer: Path, s': State)
    requires Sound(c.tasks)
    requires Leads(c, p, start, s) && AllOwn(p.events) && Resting(s) && NoneIn(s, {})
    requires TasksHaveRows(c, s) && RowsHaveTasks(c, s)
    ensures Leads(c, longer, start, s') && AllOwn(longer.events) && s'.run.Ended()
    decreases ScheduledRows(s)
  {
    var p1, s1 := SettleOne(c, p, start, s);
    if s1 == s {
      s' := Do(c, s, FinalizeRun);
      longer := Then(c, p1, start, s, FinalizeRun);
    } else {
      longer, s' := EndRun(c, p1, start, s1);
    }
  }

  // ---- the result ----

  ghost predicate CanEnd(c: Config, s: State) {
    exists p, s' :: Leads(c, p, s, s') && AllOwn(p.events) && s'.run.Ended()
  }

  lemma ReachTicking(c: Config, s: State) returns (p: Path, s': State)
    requires Sane(s)
    ensures Leads(c, p, s, s') && AllOwn(p.events) && Sane(s') && s'.phase.Ticking?
    ensures s'.rows.Keys == s.rows.Keys && s'.run == s.run && s'.op == s.op
  {
    s' := s;
    p := Stay(c, s);
    if s'.phase.RecoverQueued? {
      p, s' := Recover(c, p, s, s');
    }
    if s'.phase.RecoverRunning? {
      p, s' := Recover(c, p, s, s');
    }
  }

  lemma ReachRest(c: Config, p: Path, start: State, s: State) returns (longer: Path, s': State)
    requires Leads(c, p, start, s) && AllOwn(p.events) && Sane(s)
    requires s.phase.Ticking? && s.op == Idle && !s.run.Ended()
    ensures Leads(c, longer, start, s') && AllOwn(longer.events) && Resting(s') && NoneIn(s', {})
    ensures s'.rows.Keys == s.rows.Keys
  {
    longer, s' := DrainAll(c, p, start, s);
    longer := Then(c, longer, start, s', EndTick);
    SaneNext(c, s', EndTick, map[], Do(c, s', EndTick));
    s' := Do(c, s', EndTick);
    if s'.run == RunQueued {
      longer := Then(c, longer, start, s', ListRun);
      SaneNext(c, s', ListRun, map[], Do(c, s', ListRun));
      s' := Do(c, s', ListRun);
      longer := Then(c, longer, start, s', StartRun);
      SaneNext(c, s', StartRun, map[], Do(c, s', StartRun));
      s' := Do(c, s', StartRun);
    }
    FollowedMeansNone(s');
    longer, s' := RequeueAll(c, longer, start, s', set id | id in s'.rows && s'.rows[id].state.UpForRetry?);
  }

  /** No wedge, over all reachable states: unless an operator's action is half way, a run that has not ended
      can be brought to its end by its own steps, whatever became of it before. */
  lemma RunNeverWedges(c: Config, trace: seq<State>, events: seq<Event>, i: nat)
    requires Execution(c, trace, events) && i < |trace|
    requires Sound(c.tasks)
    requires trace[i].op == Idle && !trace[i].run.Ended()
    ensures CanEnd(c, trace[i])
  {
    var s := trace[i];
    AttemptsAreFollowed(c, trace, events, i);
    RowsThroughout(c, trace, events, i);
    var p1, s1 := ReachTicking(c, s);
    var p2, s2 := ReachRest(c, p1, s, s1);
    KeysAreTasks(c, trace[0], s2);
    var p3, s3 := EndRun(c, p2, s, s2);
  }
}
