/** Every task settles: without operator actions a task has at most MaxRetries+1 launches, and each
    row can change only a bounded number of times, crashes and recoveries included.

    The bound comes from a potential that every row change lowers, except giving back an attempt that
    was never launched, which raises it by two. */
module EngineSettles {
  import opened Dag
  import opened Engine
  import opened EngineRefs
  import opened TaskStore
  import opened TriggerRules

  function Stage(state: TaskState): nat {
    match state
    case Queued => 4
    case Running => 3
    case UpForRetry => 2
    case Scheduled => 1
    case _ => 0
  }

  /** Attempts still allowed, then the stage of the current one. */
  function Potential(r: Row): int {
    5 * (r.maxRetries + 1 - r.tries) + Stage(r.state)
  }

  ghost predicate RowInBudget(r: Row) {
    r.tries <= r.maxRetries + 1 && (r.state.Scheduled? || r.state.UpForRetry? ==> r.tries <= r.maxRetries)
  }

  ghost predicate RowsInBudget(rows: map<string, Row>) {
    forall id :: id in rows ==> RowInBudget(rows[id])
  }

  ghost predicate SameLimit(rows: map<string, Row>, wk: Worker) {
    wk.task in rows && wk.ti.maxRetries == rows[wk.task].maxRetries
  }

  ghost predicate WorkersInBudget(rows: map<string, Row>, workers: map<nat, Worker>) {
    forall w :: w in workers ==> SameLimit(rows, workers[w])
  }

  ghost predicate SnapshotInBudget(rows: map<string, Row>, id: string, seen: Row) {
    id in rows && seen.maxRetries == rows[id].maxRetries && RowInBudget(seen)
  }

  ghost predicate OpInBudget(rows: map<string, Row>, op: Op) {
    && !op.Cancelling? && !op.Marking? && !op.Reopening?
    && (op.TimingOut? ==> forall id :: id in op.todo ==> SnapshotInBudget(rows, id, op.todo[id]))
  }

  ghost predicate Budget(s: State) {
    RowsInBudget(s.rows) && WorkersInBudget(s.rows, s.workers) && OpInBudget(s.rows, s.op)
  }

  predicate GivesBackTo(s: State, step: Step, id: string) {
    (step.GivesBack? || step.RecResets?) && step.w in s.workers && s.workers[step.w].task == id
  }

  /** What a step may do to one row. */
  ghost predicate SpentOn(before: Row, after: Row, givenBack: bool) {
    && after.maxRetries == before.maxRetries
    && (|| after == before
        || Potential(after) < Potential(before)
        || (givenBack && Potential(after) == Potential(before) + 2))
  }

  ghost predicate Spent(s: State, step: Step, s': State, id: string) {
    id in s.rows ==> id in s'.rows && SpentOn(s.rows[id], s'.rows[id], GivesBackTo(s, step, id))
  }

  ghost predicate Settles(s: State, step: Step, s': State) {
    Budget(s') && forall id :: Spent(s, step, s', id)
  }

  /** A step that leaves the rows and the operation alone and starts no worker over another row. */
  lemma SettlesSameRows(s: State, step: Step, s': State)
    requires Budget(s) && s'.rows == s.rows && s'.op == s.op
    requires forall v :: v in s'.workers ==>
               v in s.workers && s'.workers[v].task == s.workers[v].task && s'.workers[v].ti == s.workers[v].ti
    ensures Settles(s, step, s')
  {
    assert WorkersInBudget(s'.rows, s'.workers) by {
      forall v | v in s'.workers ensures SameLimit(s'.rows, s'.workers[v]) {
        assert SameLimit(s.rows, s.workers[v]);
      }
    }
  }

  /** One row is written within budget, by a step that starts no worker. */
  lemma SettlesOneRow(s: State, step: Step, s': State, id: string, row: Row)
    requires Budget(s) && id in s.rows && s'.rows == s.rows[id := row] && s'.op == s.op
    requires RowInBudget(row) && SpentOn(s.rows[id], row, GivesBackTo(s, step, id))
    requires forall v :: v in s'.workers ==>
               v in s.workers && s'.workers[v].task == s.workers[v].task && s'.workers[v].ti == s.workers[v].ti
    ensures Settles(s, step, s')
  {
    assert RowsInBudget(s'.rows);
    assert WorkersInBudget(s'.rows, s'.workers) by {
      forall v | v in s'.workers ensures SameLimit(s'.rows, s'.workers[v]) {
        assert SameLimit(s.rows, s.workers[v]);
      }
    }
    assert OpInBudget(s'.rows, s'.op) by {
      if s.op.TimingOut? {
        forall i | i in s.op.todo ensures SnapshotInBudget(s'.rows, i, s.op.todo[i]) {
          assert SnapshotInBudget(s.rows, i, s.op.todo[i]);
        }
      }
    }
  }

  lemma BudgetInit(c: Config, s: State)
    requires Init(c, s)
    ensures Budget(s)
  {
    forall id | id in s.rows ensures RowInBudget(s.rows[id]) {
      var i :| 0 <= i < |c.tasks| && c.tasks[i].id == id;
      assert c.tasks[i] in c.tasks;
    }
  }

  lemma SettlesScheduling(c: Config, s: State, step: Step)
    requires Inv(s) && Budget(s) && Enabled(c, s, step)
    requires step.Block? || step.Requeue? || step.SkipReady? || step.FailReady?
    ensures Settles(s, step, Do(c, s, step))
  {
    var s' := Do(c, s, step);
    var id := if step.Requeue? then step.id else step.t.id;
    assert RowInBudget(s.rows[id]);
    SettlesOneRow(s, step, s', id, s'.rows[id]);
  }

  lemma SettlesAdmit(c: Config, s: State, step: Step)
    requires Inv(s) && Budget(s) && Enabled(c, s, step) && step.Admit?
    ensures Settles(s, step, Do(c, s, step))
  {
    var s' := Do(c, s, step);
    var dispatched := SetRow(s, step.id, Dispatched(s.rows[step.id]));
    assert RowInBudget(s.rows[step.id]);
    SettlesOneRow(s, step, dispatched, step.id, Dispatched(s.rows[step.id]));
    assert WorkersInBudget(s'.rows, s'.workers) by {
      forall v | v in s'.workers ensures SameLimit(s'.rows, s'.workers[v]) {
        assert v != step.w ==> SameLimit(dispatched.rows, dispatched.workers[v]);
      }
    }
    forall id ensures Spent(s, step, s', id) {
      assert Spent(s, step, dispatched, id);
    }
  }

  lemma SettlesMoves(c: Config, s: State, step: Step)
    requires Inv(s) && Budget(s) && Enabled(c, s, step)
    requires step.Prepared? || step.CheckStops? || step.CheckPasses? || step.NoWorker? || step.LaunchErrs?
    ensures Settles(s, step, Do(c, s, step))
  {
    SettlesSameRows(s, step, Do(c, s, step));
  }

  lemma SettlesProbes(c: Config, s: State, step: Step)
    requires Inv(s) && Budget(s) && Enabled(c, s, step)
    requires step.Polls? || step.RecProbes? || step.RecPolls?
    ensures Settles(s, step, Do(c, s, step))
  {
    SettlesSameRows(s, step, Do(c, s, step));
  }

  lemma SettlesLaunch(c: Config, s: State, step: Step)
    requires Inv(s) && Budget(s) && Enabled(c, s, step) && step.Launched?
    ensures Settles(s, step, Do(c, s, step))
  {
    SettlesSameRows(s, step, Do(c, s, step));
  }

  lemma SettlesQuietly(c: Config, s: State, step: Step)
    requires Inv(s) && Budget(s) && Enabled(c, s, step)
    requires step.ProcExits? || step.ProcLost? || step.ListRun? || step.StartRun? || step.Harvest? || step.EndTick? ||
             step.FinalizeRun?
    ensures Settles(s, step, Do(c, s, step))
  {
    SettlesSameRows(s, step, Do(c, s, step));
  }

  lemma SettlesWrite(s: State, step: Step, w: nat, row: Row, next: seq<PC>)
    requires Inv(s) && Budget(s) && w in s.workers
    requires var wk := s.workers[w];
             Matches(s.rows[wk.task], wk.ti.ref) ==>
               RowInBudget(row) && SpentOn(s.rows[wk.task], row, GivesBackTo(s, step, wk.task))
    ensures Settles(s, step, WorkerWrite(s, w, row, next))
  {
    var wk := s.workers[w];
    var s' := WorkerWrite(s, w, row, next);
    if Matches(s.rows[wk.task], wk.ti.ref) {
      SettlesOneRow(s, step, s', wk.task, row);
    } else {
      UnappliedWrite(s, w, row, next);
      SettlesSameRows(s, step, s');
    }
  }

  lemma SettlesMarksRunning(c: Config, s: State, step: Step)
    requires Inv(s) && Budget(s) && Enabled(c, s, step)
    requires step.MarksRunning? || step.RecMarks?
    ensures Settles(s, step, Do(c, s, step))
  {
    var wk := s.workers[step.w];
    assert WorkerOk(s, wk) && RowOk(s.rows[wk.task]) && RowInBudget(s.rows[wk.task]) && SameLimit(s.rows, wk);
    SettlesWrite(s, step, step.w, wk.ti.(state := Running), [Poll]);
  }

  lemma SettlesFails(c: Config, s: State, step: Step)
    requires Inv(s) && Budget(s) && Enabled(c, s, step)
    requires step.PrepareFails? || step.FailsLaunch?
    ensures Settles(s, step, Do(c, s, step))
  {
    var wk := s.workers[step.w];
    assert WorkerOk(s, wk) && RowOk(s.rows[wk.task]) && RowInBudget(s.rows[wk.task]) && SameLimit(s.rows, wk);
    SettlesWrite(s, step, step.w, FailedAttempt(wk.ti), []);
  }

  lemma SettlesFinishes(c: Config, s: State, step: Step)
    requires Inv(s) && Budget(s) && Enabled(c, s, step) && step.Finishes?
    ensures Settles(s, step, Do(c, s, step))
  {
    var wk := s.workers[step.w];
    assert WorkerOk(s, wk) && RowOk(s.rows[wk.task]) && RowInBudget(s.rows[wk.task]) && SameLimit(s.rows, wk);
    var row := if wk.pc.FinishLost? then FailedAttempt(wk.ti) else FinishedAttempt(wk.ti, wk.pc.code);
    SettlesWrite(s, step, step.w, row, []);
  }

  lemma SettlesGivesBack(c: Config, s: State, step: Step)
    requires Inv(s) && Budget(s) && Enabled(c, s, step)
    requires step.GivesBack? || step.RecResets?
    ensures Settles(s, step, Do(c, s, step))
  {
    var wk := s.workers[step.w];
    assert WorkerOk(s, wk) && RowOk(s.rows[wk.task]) && RowInBudget(s.rows[wk.task]) && SameLimit(s.rows, wk);
    SettlesWrite(s, step, step.w, GivenBack(wk.ti), []);
  }

  lemma SettlesTimeout(c: Config, s: State, step: Step)
    requires Inv(s) && Budget(s) && Enabled(c, s, step)
    requires step.TimeoutBegin? || step.OpEnd?
    ensures Settles(s, step, Do(c, s, step))
  {
    var s' := Do(c, s, step);
    assert OpInBudget(s'.rows, s'.op) by {
      forall id | id in s.rows ensures SnapshotInBudget(s.rows, id, s.rows[id]) {
        assert RowInBudget(s.rows[id]);
      }
    }
  }

  lemma SettlesOpWrite(c: Config, s: State, step: Step)
    requires Inv(s) && Budget(s) && Enabled(c, s, step) && step.OpWrite?
    ensures Settles(s, step, Do(c, s, step))
  {
    var s' := Do(c, s, step);
    var seen := s.op.todo[step.id];
    assert SnapshotOk(s, step.id, seen) && RowOk(s.rows[step.id]) && RowInBudget(s.rows[step.id]);
    assert SnapshotInBudget(s.rows, step.id, seen);
    var shorter := s.(op := s'.op);
    assert Budget(shorter);
    SettlesOneRow(shorter, step, s', step.id, s'.rows[step.id]);
    forall id ensures Spent(s, step, s', id) {
      assert Spent(shorter, step, s', id);
    }
  }

  lemma SettlesCrash(c: Config, s: State, step: Step, spawned: map<nat, Worker>, s': State)
    requires Budget(s) && Next(c, s, step, spawned, s')
    requires step.Crash? || step.RecoverNext?
    ensures Settles(s, step, s')
  {
    assert WorkersInBudget(s'.rows, s'.workers) by {
      forall v | v in s'.workers ensures SameLimit(s'.rows, s'.workers[v]) {
        if v in spawned {
          assert s'.workers[v] == spawned[v];
        } else {
          assert SameLimit(s.rows, s.workers[v]);
        }
      }
    }
  }

  lemma SettlesNext(c: Config, s: State, step: Step, spawned: map<nat, Worker>, s': State)
    requires Inv(s) && Budget(s) && Next(c, s, step, spawned, s') && !c.operators
    ensures Settles(s, step, s')
  {
    if step.Crash? || step.RecoverNext? {
      SettlesCrash(c, s, step, spawned, s');
    } else if step.OpWrite? {
      SettlesOpWrite(c, s, step);
    } else if step.TimeoutBegin? || step.OpEnd? {
      SettlesTimeout(c, s, step);
    } else if step.GivesBack? || step.RecResets? {
      SettlesGivesBack(c, s, step);
    } else if step.Finishes? {
      SettlesFinishes(c, s, step);
    } else if step.PrepareFails? || step.FailsLaunch? {
      SettlesFails(c, s, step);
    } else if step.MarksRunning? || step.RecMarks? {
      SettlesMarksRunning(c, s, step);
    } else if step.Block? || step.Requeue? || step.SkipReady? || step.FailReady? {
      SettlesScheduling(c, s, step);
    } else if step.Admit? {
      SettlesAdmit(c, s, step);
    } else if step.Polls? || step.RecProbes? || step.RecPolls? {
      SettlesProbes(c, s, step);
    } else if step.Launched? {
      SettlesLaunch(c, s, step);
    } else if step.ProcExits? || step.ProcLost? || step.ListRun? || step.StartRun? || step.Harvest? || step.EndTick? ||
               step.FinalizeRun? {
      SettlesQuietly(c, s, step);
    } else {
      SettlesMoves(c, s, step);
    }
  }

  lemma {:induction false} BudgetThroughout(c: Config, trace: seq<State>, events: seq<Event>, i: nat)
    requires Execution(c, trace, events) && !c.operators && !c.lossy && i < |trace|
    ensures Budget(trace[i]) && Inv(trace[i])
    decreases i
  {
    InvThroughout(c, trace, events, i);
    if i == 0 {
      BudgetInit(c, trace[0]);
    } else {
      BudgetThroughout(c, trace, events, i - 1);
      SettlesNext(c, trace[i - 1], events[i - 1].step, events[i - 1].spawned, trace[i]);
    }
  }

  /** A task is never on more than its MaxRetries+1st attempt. */
  lemma TriesWithinBudget(c: Config, trace: seq<State>, events: seq<Event>, i: nat, id: string)
    requires Execution(c, trace, events) && !c.operators && !c.lossy && i < |trace| && id in trace[i].rows
    ensures trace[i].rows[id].tries <= trace[i].rows[id].maxRetries + 1
  {
    BudgetThroughout(c, trace, events, i);
    assert RowInBudget(trace[i].rows[id]);
  }

  /** No retry is skipped: an attempt fails its task for good only when it was the MaxRetries+1st. */
  lemma FailsOnlyWhenSpent(c: Config, trace: seq<State>, events: seq<Event>, i: nat, id: string)
    requires Execution(c, trace, events) && !c.operators && !c.lossy && i < |events| && IsWorkerStep(events[i].step)
    requires id in trace[i].rows && !trace[i].rows[id].state.Failed?
    requires id in trace[i + 1].rows && trace[i + 1].rows[id].state.Failed?
    ensures trace[i + 1].rows[id].tries == trace[i + 1].rows[id].maxRetries + 1
  {
    BudgetThroughout(c, trace, events, i + 1);
    assert RowInBudget(trace[i + 1].rows[id]);
    FailureIsSpent(c, trace[i], events[i].step, events[i].spawned, trace[i + 1], id);
  }

  lemma FailureIsSpent(c: Config, s: State, step: Step, spawned: map<nat, Worker>, s': State, id: string)
    requires Next(c, s, step, spawned, s') && IsWorkerStep(step)
    requires id in s.rows && !s.rows[id].state.Failed? && id in s'.rows && s'.rows[id].state.Failed?
    ensures s'.rows[id].tries > s'.rows[id].maxRetries
  {
    if IsWrite(step) {
      var row, next := WriteOf(c, s, step);
    } else {
      MovesKeepRows(c, s, step);
    }
  }

  // ---- counting over an execution ----

  ghost predicate Changes(trace: seq<State>, i: nat, id: string) {
    i + 1 < |trace| && id in trace[i].rows && id in trace[i + 1].rows && trace[i + 1].rows[id] != trace[i].rows[id]
  }

  ghost function RowChanges(trace: seq<State>, n: nat, id: string): nat {
    if n == 0 then 0 else RowChanges(trace, n - 1, id) + if Changes(trace, n - 1, id) then 1 else 0
  }

  ghost function GiveBacks(trace: seq<State>, events: seq<Event>, n: nat, id: string): nat
    requires n <= |events| && n <= |trace|
  {
    if n == 0 then 0
    else GiveBacks(trace, events, n - 1, id) +
         if GivesBackTo(trace[n - 1], events[n - 1].step, id) && Changes(trace, n - 1, id) then 1 else 0
  }

  lemma {:induction false} PotentialPaysForChanges(c: Config, trace: seq<State>, events: seq<Event>, n: nat, id: string)
    requires Execution(c, trace, events) && !c.operators && !c.lossy
    requires n < |trace| && id in trace[0].rows
    ensures id in trace[n].rows && trace[n].rows[id].maxRetries == trace[0].rows[id].maxRetries
    ensures RowChanges(trace, n, id) + Potential(trace[n].rows[id])
         <= Potential(trace[0].rows[id]) + 3 * GiveBacks(trace, events, n, id)
    decreases n
  {
    if n > 0 {
      PotentialPaysForChanges(c, trace, events, n - 1, id);
      BudgetThroughout(c, trace, events, n - 1);
      SettlesNext(c, trace[n - 1], events[n - 1].step, events[n - 1].spawned, trace[n]);
      assert Spent(trace[n - 1], events[n - 1].step, trace[n], id);
    }
  }

  /** In any execution of any length, a task's row changes at most 5(MaxRetries+1)+1 times, plus three
      for each attempt given back unlaunched. */
  lemma RowChangesAreBounded(c: Config, trace: seq<State>, events: seq<Event>, t: Task)
    requires Execution(c, trace, events) && !c.operators && !c.lossy && t in c.tasks && t.id in trace[0].rows
    ensures RowChanges(trace, |events|, t.id)
         <= 5 * (t.retries + 1) + 1 + 3 * GiveBacks(trace, events, |events|, t.id)
  {
    var n := |events|;
    PotentialPaysForChanges(c, trace, events, n, t.id);
    BudgetThroughout(c, trace, events, n);
    assert RowInBudget(trace[n].rows[t.id]);
  }

  ghost function Launches(trace: seq<State>, events: seq<Event>, n: nat, id: string): nat
    requires n <= |events| && n <= |trace|
  {
    if n == 0 then 0
    else Launches(trace, events, n - 1, id) + if LaunchesTask(trace[n - 1], events[n - 1].step, id) then 1 else 0
  }

  predicate LaunchesTask(s: State, step: Step, id: string) {
    step.Launched? && step.w in s.workers && s.workers[step.w].task == id
  }

  ghost function Started(s: State, id: string): set<Key> {
    set k | k in s.procs && k.task == id
  }

  lemma StartedWith(s: State, s': State, started: set<Key>, id: string)
    requires s'.procs.Keys == s.procs.Keys + started && started !! s.procs.Keys
    requires forall j, k :: j in started && k in started ==> j == k
    ensures |Started(s', id)| == |Started(s, id)| + if exists k :: k in started && k.task == id then 1 else 0
  {
    if k :| k in started && k.task == id {
      assert Started(s', id) == Started(s, id) + {k};
    } else {
      assert Started(s', id) == Started(s, id);
    }
  }

  lemma StartedGrows(c: Config, s: State, step: Step, spawned: map<nat, Worker>, s': State, id: string)
    requires Inv(s) && Next(c, s, step, spawned, s')
    ensures |Started(s', id)| == |Started(s, id)| + if LaunchesTask(s, step, id) then 1 else 0
  {
    RecordsGrow(c, s, step, spawned, s');
    if step.Launched? {
      InvLaunched(c, s, step);
    }
    StartedWith(s, s', StartedBy(s, step), id);
    StartedByLaunch(s, step, id);
  }

  lemma StartedByLaunch(s: State, step: Step, id: string)
    ensures LaunchesTask(s, step, id) ==> exists k :: k in StartedBy(s, step) && k.task == id
    ensures forall k :: k in StartedBy(s, step) && k.task == id ==> LaunchesTask(s, step, id)
  {
    if LaunchesTask(s, step, id) {
      assert s.workers[step.w].AttemptKey() in StartedBy(s, step);
    }
  }

  lemma NothingStarted(c: Config, s: State, id: string)
    requires Init(c, s)
    ensures Started(s, id) == {}
  {
  }

  lemma {:induction false} LaunchesAreStarted(c: Config, trace: seq<State>, events: seq<Event>, n: nat, id: string)
    requires Execution(c, trace, events) && !c.lossy && n < |trace|
    ensures Launches(trace, events, n, id) == |Started(trace[n], id)|
    decreases n
  {
    if n == 0 {
      NothingStarted(c, trace[0], id);
    } else {
      LaunchesAreStarted(c, trace, events, n - 1, id);
      StartedGrowsAt(c, trace, events, n - 1, id);
    }
  }

  lemma StartedGrowsAt(c: Config, trace: seq<State>, events: seq<Event>, i: nat, id: string)
    requires Execution(c, trace, events) && !c.lossy && i < |events|
    ensures |Started(trace[i + 1], id)| ==
            |Started(trace[i], id)| + if LaunchesTask(trace[i], events[i].step, id) then 1 else 0
  {
    InvThroughout(c, trace, events, i);
    StartedGrows(c, trace[i], events[i].step, events[i].spawned, trace[i + 1], id);
  }

  lemma {:induction false} KeysUpTo(keys: set<Key>, id: string, n: nat)
    requires forall k :: k in keys ==> k.task == id && 1 <= k.try <= n
    ensures |keys| <= n
    decreases n
  {
    if n == 0 {
      assert keys == {};
    } else {
      KeysUpTo(keys - {Key(id, n)}, id, n - 1);
    }
  }

  /** With operators too, a task has never been launched more often than its row's try number says. */
  lemma LaunchesWithinTries(c: Config, trace: seq<State>, events: seq<Event>, n: nat, id: string)
    requires Execution(c, trace, events) && !c.lossy && n < |trace| && id in trace[n].rows
    ensures Launches(trace, events, n, id) <= trace[n].rows[id].tries
  {
    LaunchesAreStarted(c, trace, events, n, id);
    InvThroughout(c, trace, events, n);
    KeysUpTo(Started(trace[n], id), id, trace[n].rows[id].tries);
  }

  /** Absent operator actions a task is launched at most MaxRetries+1 times, however often attempts
      are given back and the scheduler crashes. */
  lemma LaunchesAreBounded(c: Config, trace: seq<State>, events: seq<Event>, t: Task)
    requires Execution(c, trace, events) && !c.operators && !c.lossy && t in c.tasks && t.id in trace[0].rows
    ensures Launches(trace, events, |events|, t.id) <= t.retries + 1
  {
    var n := |events|;
    PotentialPaysForChanges(c, trace, events, n, t.id);
    LaunchesWithinTries(c, trace, events, n, t.id);
    TriesWithinBudget(c, trace, events, n, t.id);
  }
}
