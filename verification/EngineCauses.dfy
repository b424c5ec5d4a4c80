/** Why a row is in the state it is in: each state has the steps that can bring a row into it, a success goes
    back to an exit with code 0, and a retry, a mark or a cancel that comes to its end has written every row it
    was to write. */
module EngineCauses {
  import opened BlockPropagation
  import opened Dag
  import DownstreamClosure
  import opened Engine
  import opened EngineShape
  import opened RunStates
  import opened TaskStore
  import opened TriggerRules

  /** A goroutine of the task records the exit code of its attempt. */
  predicate Exits(s: State, step: Step, id: string, code: int) {
    step.Finishes? && step.w in s.workers && s.workers[step.w].task == id && s.workers[step.w].pc == Finish(code)
  }

  /** A goroutine of the task records a failure: of the launch, of a lost attempt, or by its exit code. */
  predicate Fails(s: State, step: Step, id: string) {
    && (step.PrepareFails? || step.FailsLaunch? || step.Finishes?)
    && step.w in s.workers && s.workers[step.w].task == id
    && (step.Finishes? && s.workers[step.w].pc.Finish? ==>
          s.workers[step.w].pc.code != 0 && s.workers[step.w].pc.code != 99)
  }

  predicate Marks(s: State, step: Step, id: string, state: TaskState) {
    step.MarkWrite? && s.op.Marking? && s.op.id == id && s.op.ti.state == state
  }

  predicate OfTask(s: State, w: nat, id: string) {
    w in s.workers && s.workers[w].task == id
  }

  /** The steps that can bring the task's row from another state into this one. */
  ghost predicate Causes(s: State, step: Step, id: string, row: Row) {
    match row.state
    case Scheduled =>
      (step == Requeue(id) && id in s.rows && s.rows[id].state == UpForRetry) || step == ClearWrite(id) ||
      ((step.GivesBack? || step.RecResets?) && OfTask(s, step.w, id))
    case Queued => step.Admit? && step.id == id && id in s.rows && s.rows[id].state == Scheduled
    case Running => (step.MarksRunning? || step.RecMarks?) && OfTask(s, step.w, id)
    case UpForRetry => Fails(s, step, id) && row.tries <= row.maxRetries
    case Success => Exits(s, step, id, 0) || Marks(s, step, id, Success)
    case Failed =>
      (Fails(s, step, id) && row.tries > row.maxRetries) || (step.FailReady? && step.t.id == id) ||
      Marks(s, step, id, Failed)
    case UpstreamFailed => step.Block? && step.t.id == id && TaskBlocked(step.t, StatesOf(s.rows))
    case Skipped =>
      Exits(s, step, id, 99) || (step.SkipReady? && step.t.id == id) || Marks(s, step, id, Skipped)
    case Cancelled => step == OpWrite(id) && s.op.Cancelling?
    case TimedOut => step == OpWrite(id) && s.op.TimingOut?
  }

  /** Every row whose state changed is in a state that the step brings it to. */
  ghost predicate Explained(s: State, step: Step, s': State) {
    forall id :: id in s.rows && id in s'.rows && s'.rows[id].state != s.rows[id].state ==>
      Causes(s, step, id, s'.rows[id])
  }

  predicate MarkTargets(s: State) {
    s.op.Marking? ==> s.op.ti.state in {Success, Failed, Skipped}
  }

  lemma WritesExplained(c: Config, s: State, step: Step)
    requires Enabled(c, s, step) && (step.PrepareFails? || step.FailsLaunch? || step.Finishes?)
    ensures Explained(s, step, Do(c, s, step))
  {
  }

  lemma OtherWritesExplained(c: Config, s: State, step: Step)
    requires Enabled(c, s, step) && (step.MarksRunning? || step.GivesBack? || step.RecResets? || step.RecMarks?)
    ensures Explained(s, step, Do(c, s, step))
  {
  }

  predicate WritesRow(step: Step) {
    step.OpWrite? || step.MarkWrite? || step.ClearWrite?
  }

  lemma RowWritesExplained(c: Config, s: State, step: Step)
    requires Enabled(c, s, step) && WritesRow(step) && MarkTargets(s)
    ensures Explained(s, step, Do(c, s, step)) && MarkTargets(Do(c, s, step))
  {
  }

  lemma OperationsExplained(c: Config, s: State, step: Step)
    requires Enabled(c, s, step) && IsOperation(step) && MarkTargets(s)
    ensures Explained(s, step, Do(c, s, step)) && MarkTargets(Do(c, s, step))
  {
    if WritesRow(step) {
      RowWritesExplained(c, s, step);
    } else {
      assert Do(c, s, step).rows == s.rows;
    }
  }

  lemma SchedulingExplained(c: Config, s: State, step: Step)
    requires Enabled(c, s, step) && (IsSchedulingStep(step) || step.Admit?)
    ensures Explained(s, step, Do(c, s, step)) && Do(c, s, step).op == s.op
  {
  }

  lemma MovesChangeNoRow(c: Config, s: State, step: Step)
    requires Enabled(c, s, step) && IsWorkerStep(step) && !IsWrite(step)
    ensures Do(c, s, step).rows == s.rows && Do(c, s, step).op == s.op
  {
  }

  lemma WritesKeepOp(c: Config, s: State, step: Step)
    requires Enabled(c, s, step) && IsWrite(step)
    ensures Do(c, s, step).op == s.op
  {
  }

  lemma WorkersExplained(c: Config, s: State, step: Step)
    requires Enabled(c, s, step) && IsWrite(step)
    ensures Explained(s, step, Do(c, s, step)) && Do(c, s, step).op == s.op
  {
    WritesKeepOp(c, s, step);
    if step.PrepareFails? || step.FailsLaunch? || step.Finishes? {
      WritesExplained(c, s, step);
    } else {
      OtherWritesExplained(c, s, step);
    }
  }

  lemma RecoveryExplained(c: Config, s: State, step: Step, spawned: map<nat, Worker>, s': State)
    requires Next(c, s, step, spawned, s') && (step.Crash? || step.RecoverNext?)
    ensures s'.rows == s.rows && (s'.op == s.op || s'.op == Idle)
  {
  }

  /** A row comes into a state by the steps that the source has for it and by no others. */
  lemma StepExplained(c: Config, s: State, step: Step, spawned: map<nat, Worker>, s': State)
    requires Next(c, s, step, spawned, s') && MarkTargets(s)
    ensures Explained(s, step, s') && MarkTargets(s')
  {
    if step.Crash? || step.RecoverNext? {
      RecoveryExplained(c, s, step, spawned, s');
    } else if IsWrite(step) {
      WorkersExplained(c, s, step);
    } else if IsWorkerStep(step) {
      MovesChangeNoRow(c, s, step);
    } else if IsOperation(step) {
      OperationsExplained(c, s, step);
    } else if IsSchedulingStep(step) || step.Admit? {
      SchedulingExplained(c, s, step);
    }
  }

  lemma {:induction false} MarkTargetsThroughout(c: Config, trace: seq<State>, events: seq<Event>, i: nat)
    requires Execution(c, trace, events) && i < |trace|
    ensures MarkTargets(trace[i])
    decreases i
  {
    if i > 0 {
      MarkTargetsThroughout(c, trace, events, i - 1);
      StepExplained(c, trace[i - 1], events[i - 1].step, events[i - 1].spawned, trace[i]);
    }
  }

  /** Over any execution every change of a row's state has one of its causes. */
  lemma ChangesHaveCauses(c: Config, trace: seq<State>, events: seq<Event>, i: nat, id: string)
    requires Execution(c, trace, events) && i < |events|
    requires id in trace[i].rows && id in trace[i + 1].rows
    requires trace[i + 1].rows[id].state != trace[i].rows[id].state
    ensures Causes(trace[i], events[i].step, id, trace[i + 1].rows[id])
  {
    MarkTargetsThroughout(c, trace, events, i);
    StepExplained(c, trace[i], events[i].step, events[i].spawned, trace[i + 1]);
  }

  /** An attempt that still holds its row leaves it as its exit code says. */
  lemma FinishByExitCode(c: Config, s: State, w: nat)
    requires Enabled(c, s, Finishes(w)) && s.workers[w].pc.Finish?
    requires Matches(s.rows[s.workers[w].task], s.workers[w].ti.ref)
    ensures var row, code := Do(c, s, Finishes(w)).rows[s.workers[w].task], s.workers[w].pc.code;
            && row == s.workers[w].ti.(state := row.state)
            && (row.state == Success <==> code == 0) && (row.state == Skipped <==> code == 99)
            && (row.state == UpForRetry <==> code != 0 && code != 99 && row.tries <= row.maxRetries)
            && (row.state == Failed <==> code != 0 && code != 99 && row.tries > row.maxRetries)
  {
  }

  // ---- back to the exit ----

  /** The executor saw the attempt exit with this code in one of the first `i` steps. */
  ghost predicate ExitedBefore(events: seq<Event>, i: nat, k: Key, code: int) {
    exists j :: 0 <= j < i && j < |events| && events[j].step == ProcExits(k, code)
  }

  /** An exit code in the executor's record, or in a goroutine's hands, is that of an exit. */
  ghost predicate CodesAreExits(s: State, events: seq<Event>, i: nat) {
    && (forall k :: k in s.procs && s.procs[k].Exited? ==> ExitedBefore(events, i, k, s.procs[k].code))
    && (forall w :: w in s.workers && s.workers[w].pc.Finish? ==>
          ExitedBefore(events, i, s.workers[w].AttemptKey(), s.workers[w].pc.code))
  }

  ghost predicate CodeFrom(s: State, step: Step, s': State) {
    && (forall k :: k in s'.procs && s'.procs[k].Exited? ==>
          (k in s.procs && s.procs[k] == s'.procs[k]) || step == ProcExits(k, s'.procs[k].code))
    && (forall w :: w in s'.workers && s'.workers[w].pc.Finish? ==>
          (w in s.workers && s.workers[w] == s'.workers[w]) ||
          (s'.workers[w].AttemptKey() in s.procs &&
           s.procs[s'.workers[w].AttemptKey()] == Exited(s'.workers[w].pc.code)))
  }

  lemma WriteKeepsCodes(s: State, step: Step, w: nat, row: Row, next: seq<PC>)
    requires w in s.workers && s.workers[w].task in s.rows && (next != [] ==> !next[0].Finish?)
    ensures CodeFrom(s, step, WorkerWrite(s, w, row, next))
  {
  }

  lemma WritesKeepCodes(c: Config, s: State, step: Step)
    requires Enabled(c, s, step) && IsWrite(step)
    ensures CodeFrom(s, step, Do(c, s, step))
  {
    var ti := s.workers[step.w].ti;
    if step.MarksRunning? || step.RecMarks? {
      WriteKeepsCodes(s, step, step.w, ti.(state := Running), [Poll]);
    } else if step.GivesBack? || step.RecResets? {
      WriteKeepsCodes(s, step, step.w, GivenBack(ti), []);
    } else if step.Finishes? && s.workers[step.w].pc.Finish? {
      WriteKeepsCodes(s, step, step.w, FinishedAttempt(ti, s.workers[step.w].pc.code), []);
    } else {
      WriteKeepsCodes(s, step, step.w, FailedAttempt(ti), []);
    }
  }

  /** Only a probe takes a code from the executor's record. */
  lemma ProbesKeepCodes(c: Config, s: State, step: Step)
    requires Enabled(c, s, step) && (step.Polls? || step.RecProbes? || step.RecPolls?)
    ensures CodeFrom(s, step, Do(c, s, step))
  {
  }

  lemma MovesKeepCodes(c: Config, s: State, step: Step)
    requires Enabled(c, s, step) && IsWorkerStep(step) && !IsWrite(step)
    ensures CodeFrom(s, step, Do(c, s, step))
  {
    if step.Polls? || step.RecProbes? || step.RecPolls? {
      ProbesKeepCodes(c, s, step);
    } else if step.CheckStops? {
      assert Do(c, s, step) == Drop(s, step.w);
    } else if !step.Launched? {
      assert Do(c, s, step) == SetPc(s, step.w, Do(c, s, step).workers[step.w].pc);
    }
  }

  lemma OthersKeepCodes(c: Config, s: State, step: Step)
    requires Enabled(c, s, step) && !IsWorkerStep(step) && !step.Crash? && !step.RecoverNext?
    ensures CodeFrom(s, step, Do(c, s, step))
  {
  }

  lemma StepKeepsCodes(c: Config, s: State, step: Step, spawned: map<nat, Worker>, s': State)
    requires Next(c, s, step, spawned, s')
    ensures CodeFrom(s, step, s')
  {
    if step.Crash? || step.RecoverNext? {
    } else if IsWrite(step) {
      WritesKeepCodes(c, s, step);
    } else if IsWorkerStep(step) {
      MovesKeepCodes(c, s, step);
    } else {
      OthersKeepCodes(c, s, step);
    }
  }

  lemma StillExitedBefore(events: seq<Event>, i: nat, k: Key, code: int)
    requires ExitedBefore(events, i, k, code)
    ensures ExitedBefore(events, i + 1, k, code)
  {
  }

  lemma {:induction false} CodesAreExitsThroughout(c: Config, trace: seq<State>, events: seq<Event>, i: nat)
    requires Execution(c, trace, events) && i < |trace|
    ensures CodesAreExits(trace[i], events, i)
    decreases i
  {
    if i > 0 {
      var s, step, s' := trace[i - 1], events[i - 1].step, trace[i];
      CodesAreExitsThroughout(c, trace, events, i - 1);
      StepKeepsCodes(c, s, step, events[i - 1].spawned, s');
      forall k | k in s'.procs && s'.procs[k].Exited? ensures ExitedBefore(events, i, k, s'.procs[k].code) {
        if step != ProcExits(k, s'.procs[k].code) {
          StillExitedBefore(events, i - 1, k, s'.procs[k].code);
        }
      }
      forall w | w in s'.workers && s'.workers[w].pc.Finish?
        ensures ExitedBefore(events, i, s'.workers[w].AttemptKey(), s'.workers[w].pc.code)
      {
        StillExitedBefore(events, i - 1, s'.workers[w].AttemptKey(), s'.workers[w].pc.code);
      }
    }
  }

  /** A task is recorded as a success only after the very attempt its row names exited with 0, or because an
      operator marked it; and as skipped only after an exit with 99, because its condition was false, or by a
      mark. */
  lemma SuccessComesFromExit(c: Config, trace: seq<State>, events: seq<Event>, i: nat, id: string)
    requires Execution(c, trace, events) && i < |events| && !events[i].step.MarkWrite?
    requires id in trace[i].rows && id in trace[i + 1].rows
    requires trace[i + 1].rows[id].state != trace[i].rows[id].state
    ensures trace[i + 1].rows[id].state == Success ==>
              ExitedBefore(events, i, Key(id, trace[i + 1].rows[id].tries), 0)
    ensures trace[i + 1].rows[id].state == Skipped && !events[i].step.SkipReady? ==>
              ExitedBefore(events, i, Key(id, trace[i + 1].rows[id].tries), 99)
  {
    var s, step, s' := trace[i], events[i].step, trace[i + 1];
    ChangesHaveCauses(c, trace, events, i, id);
    CodesAreExitsThroughout(c, trace, events, i);
    if Exits(s, step, id, 0) || Exits(s, step, id, 99) {
      FinishKeepsTries(c, s, step, events[i].spawned, s', id);
    }
  }

  lemma FinishKeepsTries(c: Config, s: State, step: Step, spawned: map<nat, Worker>, s': State, id: string)
    requires Next(c, s, step, spawned, s') && step.Finishes? && OfTask(s, step.w, id)
    requires id in s.rows && id in s'.rows && s'.rows[id].state != s.rows[id].state
    ensures s'.rows[id].tries == s.workers[step.w].ti.tries
  {
  }

  // ---- what the operators' actions clear ----

  /** What a retry has cleared stays so until the run is set back to running. */
  ghost predicate ClearedStay(s: State) {
    s.op.Reopening? ==> forall id :: id in s.op.cleared ==>
        id in s.rows && s.rows[id].state == Scheduled && s.rows[id].ref == NoRef
  }

  lemma ClearedOperation(c: Config, s: State, step: Step)
    requires ClearedStay(s) && Enabled(c, s, step) && IsOperation(step)
    ensures ClearedStay(Do(c, s, step))
  {
  }

  lemma ClearedWorker(c: Config, s: State, step: Step)
    requires Shape(s) && ClearedStay(s) && Enabled(c, s, step) && IsWorkerStep(step)
    ensures ClearedStay(Do(c, s, step))
  {
    StepEffect(c, s, step);
  }

  lemma ClearedNext(c: Config, s: State, step: Step, spawned: map<nat, Worker>, s': State)
    requires Shape(s) && ClearedStay(s) && Next(c, s, step, spawned, s')
    ensures ClearedStay(s')
  {
    if step.Crash? || step.RecoverNext? {
      RecoveryExplained(c, s, step, spawned, s');
    } else if IsWorkerStep(step) {
      ClearedWorker(c, s, step);
    } else if IsOperation(step) {
      ClearedOperation(c, s, step);
    } else if IsSchedulingStep(step) || step.Admit? {
      SchedulingExplained(c, s, step);
      assert s.op.Reopening? ==> s'.rows == s.rows;
    }
  }

  lemma {:induction false} ClearedThroughout(c: Config, trace: seq<State>, events: seq<Event>, i: nat)
    requires Execution(c, trace, events) && i < |trace|
    ensures ClearedStay(trace[i])
    decreases i
  {
    if i > 0 {
      ClearedThroughout(c, trace, events, i - 1);
      ShapeThroughout(c, trace, events, i - 1);
      ClearedNext(c, trace[i - 1], events[i - 1].step, events[i - 1].spawned, trace[i]);
    }
  }

  predicate Clearing(s: State, ids: set<string>) {
    s.op.Reopening? && s.op.todo.Keys + s.op.cleared == ids
  }

  lemma ClearingNext(c: Config, s: State, step: Step, spawned: map<nat, Worker>, s': State, ids: set<string>)
    requires Next(c, s, step, spawned, s') && Clearing(s, ids) && !step.Crash? && !step.Reopen?
    ensures Clearing(s', ids)
  {
    if step.RecoverNext? {
      RecoveryExplained(c, s, step, spawned, s');
    } else if IsWrite(step) {
      WritesKeepOp(c, s, step);
    } else if IsWorkerStep(step) {
      MovesChangeNoRow(c, s, step);
    } else if IsSchedulingStep(step) || step.Admit? {
      SchedulingExplained(c, s, step);
    } else if step.ClearWrite? {
      assert s'.op.todo.Keys == s.op.todo.Keys - {step.id};
    }
  }

  lemma {:induction false} ClearingAlong(c: Config, trace: seq<State>, events: seq<Event>, i: nat, j: nat,
      ids: set<string>)
    requires Execution(c, trace, events) && i < j < |trace| && events[i].step == RetryBegin(ids)
    requires forall k :: i < k < j ==> !events[k].step.Crash? && !events[k].step.Reopen?
    ensures Clearing(trace[j], ids)
    decreases j
  {
    if i + 1 < j {
      ClearingAlong(c, trace, events, i, j - 1, ids);
      ClearingNext(c, trace[j - 1], events[j - 1].step, events[j - 1].spawned, trace[j], ids);
    } else {
      assert Next(c, trace[i], events[i].step, events[i].spawned, trace[j]);
      assert Restrict(trace[i].rows, ids).Keys == ids;
    }
  }

  /** Unless the process dies first, a retry that comes to its end has put every task it was to clear back to
      scheduled, without a reference, and the run is running. */
  lemma RetryClearsAll(c: Config, trace: seq<State>, events: seq<Event>, i: nat, j: nat, ids: set<string>)
    requires Execution(c, trace, events) && i < j < |events|
    requires events[i].step == RetryBegin(ids) && events[j].step == Reopen
    requires forall k :: i < k < j ==> !events[k].step.Crash? && !events[k].step.Reopen?
    ensures trace[j + 1].run == RunRunning
    ensures forall id :: id in ids ==>
              id in trace[j + 1].rows && trace[j + 1].rows[id].state == Scheduled && trace[j + 1].rows[id].ref == NoRef
  {
    ClearingAlong(c, trace, events, i, j, ids);
    ClearedThroughout(c, trace, events, j);
    var s := trace[j];
    assert Next(c, s, Reopen, events[j].spawned, trace[j + 1]);
    assert s.op.cleared == ids;
  }

  /** A mark of `id` has to release the task `r`: it is upstream_failed, downstream of `id`. */
  ghost predicate ToRelease(c: Config, rows: map<string, Row>, id: string, r: string) {
    && r != id && r in rows && rows[r].state == UpstreamFailed && r in Ids(c.tasks)
    && DownstreamClosure.Downstream(c.tasks, id, r)
  }

  /** What a mark other than a failure has still to release is on its list. */
  ghost predicate ReleasesListed(c: Config, s: State) {
    s.op.Marking? && s.op.ti.state != Failed ==>
      forall r :: ToRelease(c, s.rows, s.op.id, r) ==> r in s.op.todo
  }

  lemma ListedBegin(c: Config, s: State, step: Step)
    requires Enabled(c, s, step) && step.MarkBegin?
    ensures ReleasesListed(c, Do(c, s, step))
  {
    assert Restrict(s.rows, step.released).Keys == s.rows.Keys * step.released;
  }

  /** No task becomes upstream_failed meanwhile. */
  lemma ListedKept(c: Config, s: State, step: Step, s': State)
    requires ReleasesListed(c, s) && Explained(s, step, s') && s'.rows.Keys == s.rows.Keys && !step.Block?
    requires s.op.Marking? && s'.op.Marking? && s'.op.id == s.op.id && s'.op.ti == s.op.ti
    requires forall r :: r in s.op.todo && r !in s'.op.todo && r in s'.rows ==> s'.rows[r].state != UpstreamFailed
    ensures ReleasesListed(c, s')
  {
    if s.op.ti.state != Failed {
      forall r | ToRelease(c, s'.rows, s'.op.id, r) ensures r in s'.op.todo {
        assert s.rows[r].state == UpstreamFailed;
        assert ToRelease(c, s.rows, s.op.id, r);
      }
    }
  }

  predicate SameMark(s: State, step: Step, s': State) {
    && s'.op.Marking? ==>
      && !step.Block? && s.op.Marking? && s'.op.id == s.op.id && s'.op.ti == s.op.ti
      && forall r :: r in s.op.todo && r !in s'.op.todo && r in s'.rows ==> s'.rows[r].state != UpstreamFailed
  }

  lemma OperationKeepsMark(c: Config, s: State, step: Step)
    requires Enabled(c, s, step) && IsOperation(step) && !step.MarkBegin?
    ensures SameMark(s, step, Do(c, s, step)) && Do(c, s, step).rows.Keys == s.rows.Keys
  {
  }

  lemma SchedulingKeepsMark(c: Config, s: State, step: Step)
    requires Enabled(c, s, step) && (IsSchedulingStep(step) || step.Admit?)
    ensures SameMark(s, step, Do(c, s, step)) && Do(c, s, step).rows.Keys == s.rows.Keys
  {
  }

  lemma WorkerKeepsMark(c: Config, s: State, step: Step)
    requires Enabled(c, s, step) && IsWorkerStep(step) && Shape(s)
    ensures SameMark(s, step, Do(c, s, step)) && Do(c, s, step).rows.Keys == s.rows.Keys
  {
    StepEffect(c, s, step);
  }

  lemma StepKeepsMark(c: Config, s: State, step: Step, spawned: map<nat, Worker>, s': State)
    requires Shape(s) && Next(c, s, step, spawned, s') && !step.MarkBegin?
    ensures SameMark(s, step, s') && s'.rows.Keys == s.rows.Keys
  {
    if step.Crash? || step.RecoverNext? {
      RecoveryExplained(c, s, step, spawned, s');
    } else if IsWorkerStep(step) {
      WorkerKeepsMark(c, s, step);
    } else if IsOperation(step) {
      OperationKeepsMark(c, s, step);
    } else if IsSchedulingStep(step) || step.Admit? {
      SchedulingKeepsMark(c, s, step);
    }
  }

  lemma ListedNext(c: Config, s: State, step: Step, spawned: map<nat, Worker>, s': State)
    requires Shape(s) && MarkTargets(s) && ReleasesListed(c, s) && Next(c, s, step, spawned, s')
    ensures ReleasesListed(c, s')
  {
    if step.MarkBegin? {
      ListedBegin(c, s, step);
    } else if s'.op.Marking? {
      StepExplained(c, s, step, spawned, s');
      StepKeepsMark(c, s, step, spawned, s');
      ListedKept(c, s, step, s');
    }
  }

  lemma {:induction false} ListedThroughout(c: Config, trace: seq<State>, events: seq<Event>, i: nat)
    requires Execution(c, trace, events) && i < |trace|
    ensures ReleasesListed(c, trace[i])
    decreases i
  {
    if i > 0 {
      var s, step, s' := trace[i - 1], events[i - 1].step, trace[i];
      ListedThroughout(c, trace, events, i - 1);
      ShapeThroughout(c, trace, events, i - 1);
      MarkTargetsThroughout(c, trace, events, i - 1);
      ListedNext(c, s, step, events[i - 1].spawned, s');
    }
  }

  /** When a mark as success or skipped has been written, no task downstream is left upstream_failed. */
  lemma MarkReleases(c: Config, trace: seq<State>, events: seq<Event>, i: nat, r: string)
    requires Execution(c, trace, events) && i < |events| && events[i].step.MarkWrite?
    ensures trace[i].op.Marking? && trace[i].op.id in trace[i + 1].rows
    ensures trace[i + 1].rows[trace[i].op.id].state == trace[i].op.ti.state
    ensures trace[i].op.ti.state != Failed ==> !ToRelease(c, trace[i + 1].rows, trace[i].op.id, r)
  {
    assert Next(c, trace[i], events[i].step, events[i].spawned, trace[i + 1]);
    ListedThroughout(c, trace, events, i);
    assert ToRelease(c, trace[i + 1].rows, trace[i].op.id, r) ==> ToRelease(c, trace[i].rows, trace[i].op.id, r);
  }

  // ---- what a cancel leaves ----

  /** Of these tasks each is cancelled already or still on the cancel's list. */
  ghost predicate CancellingOf(s: State, ids: set<string>) {
    && s.op.Cancelling? && s.op.todo.Keys <= ids
    && forall id :: id in ids ==> id in s.rows && (id in s.op.todo || s.rows[id].state == Cancelled)
  }

  lemma CancelOperation(c: Config, s: State, step: Step, ids: set<string>)
    requires Enabled(c, s, step) && IsOperation(step) && CancellingOf(s, ids) && !step.OpEnd?
    ensures CancellingOf(Do(c, s, step), ids)
  {
    if step.OpWrite? {
      assert Do(c, s, step).op.todo.Keys == s.op.todo.Keys - {step.id};
    }
  }

  /** A goroutine does not touch a cancelled row. */
  lemma CancelWorker(c: Config, s: State, step: Step, ids: set<string>)
    requires Shape(s) && Enabled(c, s, step) && IsWorkerStep(step) && CancellingOf(s, ids)
    ensures CancellingOf(Do(c, s, step), ids)
  {
    StepEffect(c, s, step);
  }

  lemma CancelNext(c: Config, s: State, step: Step, spawned: map<nat, Worker>, s': State, ids: set<string>)
    requires Shape(s) && Next(c, s, step, spawned, s') && CancellingOf(s, ids) && !step.Crash? && !step.OpEnd?
    ensures CancellingOf(s', ids)
  {
    if step.RecoverNext? {
      RecoveryExplained(c, s, step, spawned, s');
    } else if IsWorkerStep(step) {
      CancelWorker(c, s, step, ids);
    } else if IsOperation(step) {
      CancelOperation(c, s, step, ids);
    } else if IsSchedulingStep(step) || step.Admit? {
      SchedulingExplained(c, s, step);
      assert s'.rows == s.rows;
    }
  }

  lemma {:induction false} CancelAlong(c: Config, trace: seq<State>, events: seq<Event>, i: nat, j: nat)
    requires Execution(c, trace, events) && i < j < |trace| && events[i].step == CancelBegin
    requires forall k :: i < k < j ==> !events[k].step.Crash? && !events[k].step.OpEnd?
    ensures CancellingOf(trace[j], Open(trace[i].rows).Keys)
    decreases j
  {
    if i + 1 < j {
      CancelAlong(c, trace, events, i, j - 1);
      ShapeThroughout(c, trace, events, j - 1);
      CancelNext(c, trace[j - 1], events[j - 1].step, events[j - 1].spawned, trace[j], Open(trace[i].rows).Keys);
    } else {
      assert Next(c, trace[i], events[i].step, events[i].spawned, trace[j]);
    }
  }

  /** Unless the process dies first, a cancel that comes to its end has cancelled every task that was not over when
      it began, whatever the goroutines did meanwhile: a success they record in between does not stand. */
  lemma CancelCancelsAll(c: Config, trace: seq<State>, events: seq<Event>, i: nat, j: nat, id: string)
    requires Execution(c, trace, events) && i < j < |events|
    requires events[i].step == CancelBegin && events[j].step == OpEnd
    requires forall k :: i < k < j ==> !events[k].step.Crash? && !events[k].step.OpEnd?
    requires id in trace[i].rows && !trace[i].rows[id].state.IsTerminal()
    ensures id in trace[j + 1].rows && trace[j + 1].rows[id].state == Cancelled
  {
    CancelAlong(c, trace, events, i, j);
    assert Next(c, trace[j], OpEnd, events[j].spawned, trace[j + 1]);
  }
}
