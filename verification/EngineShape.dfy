/** What every reachable state of module Engine looks like, whatever its flags, and what a
    goroutine's step can change: the facts that the ordering and progress results share. */
module EngineShape {
  import opened Engine
  import opened TaskStore
  import opened TriggerRules

  /** An attempt holds the row. */
  predicate InFlight(state: TaskState) {
    state.Queued? || state.Running? || state.UpForRetry?
  }

  predicate RowShape(r: Row) {
    (r.state.Scheduled? ==> r.ref.NoRef?) && (InFlight(r.state) ==> r.ref.Attempt?)
  }

  ghost predicate RowsShape(rows: map<string, Row>) {
    forall id :: id in rows ==> RowShape(rows[id])
  }

  ghost predicate WorkerShape(rows: map<string, Row>, wk: Worker) {
    wk.task in rows && wk.ti.ref.Attempt?
  }

  ghost predicate WorkersShape(rows: map<string, Row>, workers: map<nat, Worker>) {
    forall w :: w in workers ==> WorkerShape(rows, workers[w])
  }

  ghost predicate Shape(s: State) {
    && RowsShape(s.rows) && WorkersShape(s.rows, s.workers)
    && (s.op.Marking? ==> s.op.ti.state.IsTerminal())
    && (s.harvest != {} ==> s.phase.Ticking?)
  }

  /** What an attempt leaves on its row: a state of its own, or the attempt given back. */
  predicate OwnOutcome(ref: Ref, row: Row) {
    if row.ref == ref then !row.state.Scheduled? else row.state.Scheduled? && row.ref.NoRef?
  }

  ghost predicate RowEffect(wk: Worker, before: Row, after: Row) {
    after == before || (InFlight(before.state) && before.ref == wk.ti.ref && OwnOutcome(wk.ti.ref, after))
  }

  ghost predicate Follows(wk: Worker, id: string, row: Row) {
    wk.task == id && wk.ti.ref == row.ref
  }

  predicate NeedsFollower(state: TaskState) {
    state.Queued? || state.Running?
  }

  /** A goroutine touches its own task's row and itself, nothing else; and it goes away only once its
      row is no longer queued or running under its reference. */
  ghost predicate WorkerEffect(s: State, w: nat, s': State) {
    && w in s.workers && s.workers[w].task in s.rows
    && s' == s.(rows := s'.rows, workers := s'.workers, procs := s'.procs)
    && s'.rows.Keys == s.rows.Keys
    && (forall id :: id in s.rows && id != s.workers[w].task ==> s'.rows[id] == s.rows[id])
    && RowEffect(s.workers[w], s.rows[s.workers[w].task], s'.rows[s.workers[w].task])
    && (forall v :: v in s'.workers ==>
          v in s.workers && s'.workers[v].task == s.workers[v].task && s'.workers[v].ti == s.workers[v].ti)
    && (forall v :: v in s.workers && v != w ==> v in s'.workers)
    && (w !in s'.workers ==>
          !(NeedsFollower(s'.rows[s.workers[w].task].state) &&
            s'.rows[s.workers[w].task].ref == s.workers[w].ti.ref))
  }

  lemma MoveEffect(s: State, w: nat, pc: PC)
    requires w in s.workers && s.workers[w].task in s.rows
    ensures WorkerEffect(s, w, SetPc(s, w, pc))
  {
  }

  lemma WriteEffect(s: State, w: nat, row: Row, next: seq<PC>)
    requires Shape(s) && w in s.workers && OwnOutcome(s.workers[w].ti.ref, row)
    requires next == [] ==> !NeedsFollower(row.state)
    ensures WorkerEffect(s, w, WorkerWrite(s, w, row, next))
  {
    assert WorkerShape(s.rows, s.workers[w]) && RowShape(s.rows[s.workers[w].task]);
  }

  lemma StepEffectMoves(c: Config, s: State, step: Step)
    requires Shape(s) && Enabled(c, s, step)
    requires step.Prepared? || step.CheckStops? || step.CheckPasses? || step.Launched? || step.NoWorker? ||
             step.LaunchErrs? || step.Polls? || step.RecProbes? || step.RecPolls?
    ensures WorkerEffect(s, step.w, Do(c, s, step))
  {
    if !step.CheckStops? {
      MoveEffect(s, step.w, Do(c, s, step).workers[step.w].pc);
    }
  }

  lemma StepEffectWrites(c: Config, s: State, step: Step)
    requires Shape(s) && Enabled(c, s, step)
    requires step.PrepareFails? || step.FailsLaunch? || step.Finishes?
    ensures WorkerEffect(s, step.w, Do(c, s, step))
  {
    var wk := s.workers[step.w];
    assert WorkerShape(s.rows, wk);
    var row := if !step.Finishes? || wk.pc.FinishLost? then FailedAttempt(wk.ti)
               else FinishedAttempt(wk.ti, wk.pc.code);
    WriteEffect(s, step.w, row, []);
  }

  lemma StepEffectStates(c: Config, s: State, step: Step)
    requires Shape(s) && Enabled(c, s, step)
    requires step.MarksRunning? || step.RecMarks? || step.GivesBack? || step.RecResets?
    ensures WorkerEffect(s, step.w, Do(c, s, step))
  {
    var wk := s.workers[step.w];
    assert WorkerShape(s.rows, wk);
    if step.MarksRunning? || step.RecMarks? {
      WriteEffect(s, step.w, wk.ti.(state := Running), [Poll]);
    } else {
      WriteEffect(s, step.w, GivenBack(wk.ti), []);
    }
  }

  lemma StepEffect(c: Config, s: State, step: Step)
    requires Shape(s) && Enabled(c, s, step) && IsWorkerStep(step)
    ensures WorkerEffect(s, step.w, Do(c, s, step))
  {
    if step.PrepareFails? || step.FailsLaunch? || step.Finishes? {
      StepEffectWrites(c, s, step);
    } else if step.MarksRunning? || step.RecMarks? || step.GivesBack? || step.RecResets? {
      StepEffectStates(c, s, step);
    } else {
      StepEffectMoves(c, s, step);
    }
  }

  lemma ShapeInit(c: Config, s: State)
    requires Init(c, s)
    ensures Shape(s)
  {
    forall id | id in s.rows ensures RowShape(s.rows[id]) {
      var i :| 0 <= i < |c.tasks| && c.tasks[i].id == id;
      assert c.tasks[i] in c.tasks;
    }
  }

  lemma SameWorkersShape(s: State, s': State)
    requires Shape(s) && RowsShape(s'.rows) && s.rows.Keys <= s'.rows.Keys && s'.workers == s.workers
    requires s'.op.Marking? ==> s'.op.ti.state.IsTerminal()
    requires s'.harvest != {} ==> s'.phase.Ticking?
    ensures Shape(s')
  {
    forall w | w in s'.workers ensures WorkerShape(s'.rows, s'.workers[w]) {
      assert WorkerShape(s.rows, s.workers[w]);
    }
  }

  lemma ShapeWorker(s: State, w: nat, s': State)
    requires Shape(s) && WorkerEffect(s, w, s')
    ensures Shape(s')
  {
    assert RowsShape(s'.rows) by {
      forall id | id in s'.rows ensures RowShape(s'.rows[id]) {
        assert RowShape(s.rows[id]) && WorkerShape(s.rows, s.workers[w]);
      }
    }
    forall v | v in s'.workers ensures WorkerShape(s'.rows, s'.workers[v]) {
      assert WorkerShape(s.rows, s.workers[v]);
    }
  }

  lemma ShapeScheduling(c: Config, s: State, step: Step)
    requires Shape(s) && Enabled(c, s, step) && IsSchedulingStep(step)
    ensures Shape(Do(c, s, step))
  {
    var s' := Do(c, s, step);
    if step.Block? || step.SkipReady? || step.FailReady? {
      assert s'.rows == s.rows[step.t.id := s'.rows[step.t.id]];
    } else if step.Requeue? {
      assert s'.rows == s.rows[step.id := s'.rows[step.id]];
    } else {
      assert s'.rows == s.rows;
    }
    SameWorkersShape(s, s');
  }

  lemma ShapeAdmit(c: Config, s: State, step: Step)
    requires Shape(s) && Enabled(c, s, step) && step.Admit?
    ensures Shape(Do(c, s, step))
  {
    var s' := Do(c, s, step);
    forall v | v in s'.workers ensures WorkerShape(s'.rows, s'.workers[v]) {
      assert v != step.w ==> WorkerShape(s.rows, s.workers[v]);
    }
  }

  lemma ShapeRowWrite(c: Config, s: State, step: Step)
    requires Shape(s) && Enabled(c, s, step) && (step.OpWrite? || step.MarkWrite? || step.ClearWrite?)
    ensures Shape(Do(c, s, step))
  {
    var s' := Do(c, s, step);
    var id := if step.MarkWrite? then s.op.id else step.id;
    assert RowShape(s.rows[id]);
    assert s'.rows == s.rows[id := s'.rows[id]];
    SameWorkersShape(s, s');
  }

  lemma ShapeOperation(c: Config, s: State, step: Step)
    requires Shape(s) && Enabled(c, s, step) && IsOperation(step)
    ensures Shape(Do(c, s, step))
  {
    if step.OpWrite? || step.MarkWrite? || step.ClearWrite? {
      ShapeRowWrite(c, s, step);
    } else {
      SameWorkersShape(s, Do(c, s, step));
    }
  }

  lemma ShapeRecovery(c: Config, s: State, step: Step, spawned: map<nat, Worker>, s': State)
    requires Shape(s) && Next(c, s, step, spawned, s') && (step.Crash? || step.RecoverNext?)
    ensures Shape(s')
  {
    forall v | v in s'.workers ensures WorkerShape(s'.rows, s'.workers[v]) {
      if v in spawned {
        assert RowShape(s.rows[spawned[v].task]);
      } else {
        assert WorkerShape(s.rows, s.workers[v]);
      }
    }
  }

  lemma ShapeNext(c: Config, s: State, step: Step, spawned: map<nat, Worker>, s': State)
    requires Shape(s) && Next(c, s, step, spawned, s')
    ensures Shape(s')
  {
    if step.Crash? || step.RecoverNext? {
      ShapeRecovery(c, s, step, spawned, s');
    } else if IsWorkerStep(step) {
      StepEffect(c, s, step);
      ShapeWorker(s, step.w, s');
    } else if IsSchedulingStep(step) {
      ShapeScheduling(c, s, step);
    } else if step.Admit? {
      ShapeAdmit(c, s, step);
    } else if IsOperation(step) {
      ShapeOperation(c, s, step);
    } else {
      SameWorkersShape(s, s');
    }
  }

  lemma {:induction false} ShapeThroughout(c: Config, trace: seq<State>, events: seq<Event>, i: nat)
    requires Execution(c, trace, events) && i < |trace|
    ensures Shape(trace[i])
    decreases i
  {
    if i == 0 {
      ShapeInit(c, trace[0]);
    } else {
      ShapeThroughout(c, trace, events, i - 1);
      ShapeNext(c, trace[i - 1], events[i - 1].step, events[i - 1].spawned, trace[i]);
    }
  }
}
