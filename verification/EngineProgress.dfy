/** Nothing is forgotten, over every interleaving of module Engine.

    Every queued or running row has a goroutine that follows it, across crashes and recovery (module
    EngineEnds shows that a run can therefore always end). And when a run has ended nobody can still
    write its rows, so a retry orphans no attempt, provided no crash catches an ended run with a row
    still queued or running. */
module EngineProgress {
  import opened Dag
  import opened Engine
  import opened EngineRefs
  import opened EngineShape
  import opened RunStates
  import opened TaskStore
  import opened TriggerRules

  // ---- every attempt is followed ----

  ghost predicate HasFollower(s: State, id: string, row: Row) {
    exists w :: w in s.workers && Follows(s.workers[w], id, row)
  }

  /** Recover looks at queued rows first; running rows get their goroutine in its second pass. */
  ghost predicate RowFollowed(s: State, id: string) {
    id in s.rows && NeedsFollower(s.rows[id].state) ==>
      HasFollower(s, id, s.rows[id]) || (s.phase.RecoverQueued? && s.rows[id].state.Running?)
  }

  ghost predicate AllFollowed(s: State) {
    forall id :: id in s.rows ==> RowFollowed(s, id)
  }

  lemma FollowedInit(c: Config, s: State)
    requires Init(c, s)
    ensures AllFollowed(s)
  {
    forall id | id in s.rows ensures RowFollowed(s, id) {
      var i :| 0 <= i < |c.tasks| && c.tasks[i].id == id;
      assert c.tasks[i] in c.tasks;
    }
  }

  lemma FollowedWorker(s: State, w: nat, s': State)
    requires Shape(s) && AllFollowed(s) && WorkerEffect(s, w, s')
    ensures AllFollowed(s')
  {
    forall id | id in s'.rows && NeedsFollower(s'.rows[id].state) ensures RowFollowed(s', id) {
      if s'.rows[id] == s.rows[id] {
        assert RowFollowed(s, id);
        if HasFollower(s, id, s.rows[id]) {
          var v :| v in s.workers && Follows(s.workers[v], id, s.rows[id]);
          assert v in s'.workers && Follows(s'.workers[v], id, s'.rows[id]);
        }
      } else {
        assert RowEffect(s.workers[w], s.rows[id], s'.rows[id]);
        assert w in s'.workers && Follows(s'.workers[w], id, s'.rows[id]);
      }
    }
  }

  /** Rows may come to rest, but none starts to need a goroutine; no goroutine goes away. */
  lemma FollowedSame(s: State, s': State)
    requires AllFollowed(s) && s'.workers == s.workers && s'.phase == s.phase
    requires forall id :: id in s'.rows && NeedsFollower(s'.rows[id].state) ==>
             id in s.rows && s'.rows[id] == s.rows[id]
    ensures AllFollowed(s')
  {
    forall id | id in s'.rows && NeedsFollower(s'.rows[id].state) ensures RowFollowed(s', id) {
      assert RowFollowed(s, id);
      if HasFollower(s, id, s.rows[id]) {
        var v :| v in s.workers && Follows(s.workers[v], id, s.rows[id]);
        assert Follows(s'.workers[v], id, s'.rows[id]);
      }
    }
  }

  lemma FollowedAdmit(c: Config, s: State, step: Step)
    requires AllFollowed(s) && Enabled(c, s, step) && step.Admit?
    ensures AllFollowed(Do(c, s, step))
  {
    var s' := Do(c, s, step);
    forall id | id in s'.rows && NeedsFollower(s'.rows[id].state) ensures RowFollowed(s', id) {
      if id == step.id {
        assert Follows(s'.workers[step.w], id, s'.rows[id]);
      } else {
        assert RowFollowed(s, id);
        if HasFollower(s, id, s.rows[id]) {
          var v :| v in s.workers && Follows(s.workers[v], id, s.rows[id]);
          assert v in s'.workers && Follows(s'.workers[v], id, s'.rows[id]);
        }
      }
    }
  }

  lemma FollowedScheduling(c: Config, s: State, step: Step)
    requires AllFollowed(s) && Enabled(c, s, step) && IsSchedulingStep(step)
    ensures AllFollowed(Do(c, s, step))
  {
    FollowedSame(s, Do(c, s, step));
  }

  lemma FollowedRowWrite(c: Config, s: State, step: Step)
    requires Shape(s) && AllFollowed(s) && Enabled(c, s, step)
    requires step.OpWrite? || step.MarkWrite? || step.ClearWrite?
    ensures AllFollowed(Do(c, s, step))
  {
    var s' := Do(c, s, step);
    var id := if step.MarkWrite? then s.op.id else step.id;
    assert s'.rows == s.rows[id := s'.rows[id]];
    assert s'.rows[id] == s.rows[id] || s'.rows[id].state.IsTerminal() || s'.rows[id].state.Scheduled?;
    FollowedSame(s, s');
  }

  lemma FollowedOperation(c: Config, s: State, step: Step)
    requires Shape(s) && AllFollowed(s) && Enabled(c, s, step) && IsOperation(step)
    ensures AllFollowed(Do(c, s, step))
  {
    if step.OpWrite? || step.MarkWrite? || step.ClearWrite? {
      FollowedRowWrite(c, s, step);
    } else {
      FollowedSame(s, Do(c, s, step));
    }
  }

  lemma FollowedRecovery(c: Config, s: State, step: Step, spawned: map<nat, Worker>, s': State)
    requires AllFollowed(s) && Next(c, s, step, spawned, s') && (step.Crash? || step.RecoverNext?)
    ensures AllFollowed(s')
  {
    forall id | id in s'.rows && NeedsFollower(s'.rows[id].state) ensures RowFollowed(s', id) {
      assert RowFollowed(s, id);
      if step.Crash? {
        if s.rows[id].state.Queued? {
          var w :| w in spawned && spawned[w] == Worker(id, s.rows[id], RecProbe);
          assert Follows(s'.workers[w], id, s'.rows[id]);
        }
      } else if s.phase.RecoverQueued? && s.rows[id].state.Running? {
        var w :| w in spawned && spawned[w] == Worker(id, s.rows[id], RecRunning);
        assert s'.workers[w] == spawned[w] && Follows(s'.workers[w], id, s'.rows[id]);
      } else {
        var v :| v in s.workers && Follows(s.workers[v], id, s.rows[id]);
        assert s'.workers[v] == s.workers[v] && Follows(s'.workers[v], id, s'.rows[id]);
      }
    }
  }

  lemma FollowedNext(c: Config, s: State, step: Step, spawned: map<nat, Worker>, s': State)
    requires Shape(s) && AllFollowed(s) && Next(c, s, step, spawned, s')
    ensures AllFollowed(s')
  {
    if IsWorkerStep(step) {
      StepEffect(c, s, step);
      FollowedWorker(s, step.w, s');
    } else if step.Admit? {
      FollowedAdmit(c, s, step);
    } else if IsSchedulingStep(step) {
      FollowedScheduling(c, s, step);
    } else if IsOperation(step) {
      FollowedOperation(c, s, step);
    } else if step.Crash? || step.RecoverNext? {
      FollowedRecovery(c, s, step, spawned, s');
    } else {
      FollowedSame(s, s');
    }
  }

  /** In every reachable state, each queued or running row is followed: no attempt is ever forgotten. */
  lemma {:induction false} AttemptsAreFollowed(c: Config, trace: seq<State>, events: seq<Event>, i: nat)
    requires Execution(c, trace, events) && i < |trace|
    ensures AllFollowed(trace[i]) && Shape(trace[i])
    decreases i
  {
    ShapeThroughout(c, trace, events, i);
    if i == 0 {
      FollowedInit(c, trace[0]);
    } else {
      AttemptsAreFollowed(c, trace, events, i - 1);
      FollowedNext(c, trace[i - 1], events[i - 1].step, events[i - 1].spawned, trace[i]);
    }
  }

  // ---- the rows are the tasks' rows ----

  lemma RowsNext(c: Config, s: State, step: Step, spawned: map<nat, Worker>, s': State)
    requires Shape(s) && Next(c, s, step, spawned, s')
    ensures s'.rows.Keys == s.rows.Keys
  {
    if IsWorkerStep(step) {
      StepEffect(c, s, step);
    }
  }

  lemma {:induction false} RowsThroughout(c: Config, trace: seq<State>, events: seq<Event>, i: nat)
    requires Execution(c, trace, events) && i < |trace|
    ensures trace[i].rows.Keys == trace[0].rows.Keys
    decreases i
  {
    if i > 0 {
      RowsThroughout(c, trace, events, i - 1);
      ShapeThroughout(c, trace, events, i - 1);
      RowsNext(c, trace[i - 1], events[i - 1].step, events[i - 1].spawned, trace[i]);
    }
  }

  ghost predicate TasksHaveRows(c: Config, s: State) {
    forall i :: 0 <= i < |c.tasks| ==> c.tasks[i].id in s.rows
  }

  ghost predicate RowsHaveTasks(c: Config, s: State) {
    forall id :: id in s.rows ==> HasTask(c.tasks, id)
  }

  lemma KeysAreTasks(c: Config, first: State, s: State)
    requires Init(c, first) && s.rows.Keys == first.rows.Keys
    ensures TasksHaveRows(c, s) && RowsHaveTasks(c, s)
  {
    forall id | id in s.rows ensures HasTask(c.tasks, id) {
      var i :| 0 <= i < |c.tasks| && c.tasks[i].id == id;
    }
  }

  // ---- an ended run is at rest ----

  ghost predicate PickedAtRest(s: State) {
    forall id :: id in s.harvest && id in s.rows ==> !InFlight(s.rows[id].state)
  }

  /** Waiting for a retry that a crash of an ended run has left behind: no goroutine holds its attempt. */
  ghost predicate Stranded(s: State, id: string)
    requires id in s.rows
  {
    s.rows[id].state.UpForRetry? && !HasFollower(s, id, s.rows[id])
  }

  ghost predicate AtRest(s: State, id: string)
    requires id in s.rows
  {
    || s.rows[id].state.IsTerminal() || Stranded(s, id)
    || (s.rows[id].state.Scheduled? && (s.op.Marking? || s.op.Reopening? || id !in s.harvest))
    || ((s.op.Cancelling? || s.op.TimingOut?) && id in s.op.todo)
  }

  ghost predicate EndedAtRest(s: State) {
    s.run.Ended() ==> forall id :: id in s.rows ==> AtRest(s, id)
  }

  predicate TimeoutTracks(s: State, id: string, seen: Row) {
    id in s.rows &&
    (s.rows[id].ref == seen.ref || s.rows[id].state.IsTerminal() || (s.rows[id].state.Scheduled? && id !in s.harvest))
  }

  ghost predicate TimeoutsTrack(s: State) {
    s.op.TimingOut? ==> forall id :: id in s.op.todo ==> TimeoutTracks(s, id, s.op.todo[id])
  }

  /** A run is reopened only after it has ended. */
  predicate ReopensEnded(s: State) {
    s.op.Reopening? ==> s.run.Ended()
  }

  ghost predicate Quiet(s: State) {
    PickedAtRest(s) && EndedAtRest(s) && TimeoutsTrack(s) && ReopensEnded(s)
  }

  lemma QuietWorker(s: State, w: nat, s': State)
    requires Shape(s) && Quiet(s) && WorkerEffect(s, w, s')
    ensures Quiet(s')
  {
    var id := s.workers[w].task;
    assert RowShape(s.rows[id]);
    assert EndedAtRest(s') by {
      if s'.run.Ended() {
        forall i | i in s'.rows ensures AtRest(s', i) {
          assert AtRest(s, i);
        }
      }
    }
    assert TimeoutsTrack(s') by {
      if s'.op.TimingOut? {
        forall i | i in s'.op.todo ensures TimeoutTracks(s', i, s'.op.todo[i]) {
          assert TimeoutTracks(s, i, s.op.todo[i]);
        }
      }
    }
  }

  lemma QuietScheduling(c: Config, s: State, step: Step)
    requires Quiet(s) && Enabled(c, s, step) && (IsSchedulingStep(step) || step.Admit?)
    ensures Quiet(Do(c, s, step))
  {
    if step.Admit? {
      assert s.run.Ended() ==> AtRest(s, step.id);
    } else if step.EndTick? {
      var s' := Do(c, s, step);
      if s.run.Ended() {
        forall i | i in s.rows ensures AtRest(s', i) {
          assert AtRest(s, i);
        }
      }
    }
  }

  lemma QuietOpWrite(c: Config, s: State, id: string)
    requires Shape(s) && Quiet(s) && Enabled(c, s, OpWrite(id))
    ensures Quiet(Do(c, s, OpWrite(id)))
  {
    var s' := Do(c, s, OpWrite(id));
    assert s.op.TimingOut? ==> TimeoutTracks(s, id, s.op.todo[id]);
    assert EndedAtRest(s') by {
      if s'.run.Ended() {
        forall i | i in s'.rows ensures AtRest(s', i) {
          assert AtRest(s, i);
        }
      }
    }
    assert TimeoutsTrack(s') by {
      if s'.op.TimingOut? {
        forall i | i in s'.op.todo ensures TimeoutTracks(s', i, s'.op.todo[i]) {
          assert TimeoutTracks(s, i, s.op.todo[i]);
        }
      }
    }
  }

  lemma QuietBegin(c: Config, s: State, step: Step)
    requires Quiet(s) && Enabled(c, s, step)
    requires step.CancelBegin? || step.TimeoutBegin? || step.OpEnd? || step.MarkBegin? || step.RetryBegin?
    ensures Quiet(Do(c, s, step))
  {
    var s' := Do(c, s, step);
    if s.run.Ended() {
      forall i | i in s'.rows ensures AtRest(s', i) {
        assert AtRest(s, i);
      }
    }
  }

  lemma QuietReset(c: Config, s: State, step: Step)
    requires Shape(s) && Quiet(s) && Enabled(c, s, step) && (step.MarkWrite? || step.ClearWrite? || step.Reopen?)
    ensures Quiet(Do(c, s, step))
  {
    var s' := Do(c, s, step);
    if s'.run.Ended() {
      forall i | i in s'.rows ensures AtRest(s', i) {
        assert AtRest(s, i);
      }
    }
  }

  lemma QuietOperation(c: Config, s: State, step: Step)
    requires Shape(s) && Quiet(s) && Enabled(c, s, step) && IsOperation(step)
    ensures Quiet(Do(c, s, step))
  {
    if step.OpWrite? {
      QuietOpWrite(c, s, step.id);
    } else if step.MarkWrite? || step.ClearWrite? || step.Reopen? {
      QuietReset(c, s, step);
    } else {
      QuietBegin(c, s, step);
    }
  }

  lemma QuietOther(s: State, s': State)
    requires Quiet(s) && s'.rows == s.rows && s'.run == s.run && s'.harvest == s.harvest && s'.op == s.op
    requires forall id :: id in s.rows && Stranded(s, id) ==> Stranded(s', id)
    ensures Quiet(s')
  {
    if s'.run.Ended() {
      forall i | i in s'.rows ensures AtRest(s', i) {
        assert AtRest(s, i);
      }
    }
    if s'.op.TimingOut? {
      forall i | i in s'.op.todo ensures TimeoutTracks(s', i, s'.op.todo[i]) {
        assert TimeoutTracks(s, i, s.op.todo[i]);
      }
    }
  }

  /** The crash does not catch an ended run with a row still queued or running. */
  ghost predicate CalmCrash(s: State) {
    s.run.Ended() ==> forall id :: id in s.rows ==> !NeedsFollower(s.rows[id].state)
  }

  lemma CalmCrashKeepsQuiet(c: Config, s: State, spawned: map<nat, Worker>, s': State)
    requires Shape(s) && Quiet(s) && Next(c, s, Crash, spawned, s') && CalmCrash(s)
    ensures Quiet(s')
  {
    if s.run.Ended() {
      forall id | id in s.rows ensures AtRest(s', id) {
        assert AtRest(s, id);
      }
    }
  }

  lemma InFlightIsNotQuiet(s: State, id: string)
    requires s.run.Ended() && s.op == Idle && id in s.rows && NeedsFollower(s.rows[id].state)
    ensures !Quiet(s)
  {
    assert !AtRest(s, id);
  }

  /** A crash leaves an ended run at rest if and only if it is calm. */
  lemma CrashKeepsQuietIff(c: Config, s: State, spawned: map<nat, Worker>, s': State)
    requires Shape(s) && Quiet(s) && Next(c, s, Crash, spawned, s')
    ensures Quiet(s') <==> CalmCrash(s)
  {
    if CalmCrash(s) {
      CalmCrashKeepsQuiet(c, s, spawned, s');
    } else {
      var id :| id in s.rows && NeedsFollower(s.rows[id].state);
      InFlightIsNotQuiet(s', id);
    }
  }

  /** Outside a cancel or a timeout every crash is calm; so only one that comes before such an operation has
      written its last row in flight is not. */
  lemma OnlyCutShortIsNotCalm(s: State)
    requires Quiet(s) && !CalmCrash(s)
    ensures s.op.Cancelling? || s.op.TimingOut?
    ensures exists id :: id in s.rows && id in s.op.todo && NeedsFollower(s.rows[id].state)
  {
    var id :| id in s.rows && NeedsFollower(s.rows[id].state);
    assert AtRest(s, id);
  }

  /** Recover starts no goroutine for a row that waits for a retry. */
  lemma RecoverNextLeavesStranded(c: Config, s: State, spawned: map<nat, Worker>, s': State, id: string)
    requires Next(c, s, RecoverNext, spawned, s') && id in s.rows && Stranded(s, id)
    ensures Stranded(s', id)
  {
    forall w | w in s'.workers ensures !Follows(s'.workers[w], id, s.rows[id]) {
      if w in s.workers && w !in spawned {
        assert s'.workers[w] == s.workers[w];
      }
    }
  }

  lemma QuietNext(c: Config, s: State, step: Step, spawned: map<nat, Worker>, s': State)
    requires Shape(s) && Quiet(s) && Next(c, s, step, spawned, s') && (step.Crash? ==> CalmCrash(s))
    ensures Quiet(s')
  {
    if IsWorkerStep(step) {
      StepEffect(c, s, step);
      QuietWorker(s, step.w, s');
    } else if IsSchedulingStep(step) || step.Admit? {
      QuietScheduling(c, s, step);
    } else if IsOperation(step) {
      QuietOperation(c, s, step);
    } else if step.Crash? {
      CrashKeepsQuietIff(c, s, spawned, s');
    } else {
      if step.RecoverNext? {
        forall id | id in s.rows && Stranded(s, id) ensures Stranded(s', id) {
          RecoverNextLeavesStranded(c, s, spawned, s', id);
        }
      }
      QuietOther(s, s');
    }
  }

  ghost predicate CalmCrashes(trace: seq<State>, events: seq<Event>) {
    forall i :: 0 <= i < |events| && i < |trace| && events[i].step.Crash? ==> CalmCrash(trace[i])
  }

  lemma QuietStep(c: Config, trace: seq<State>, events: seq<Event>, i: nat)
    requires Execution(c, trace, events) && CalmCrashes(trace, events) && i < |events| && Quiet(trace[i])
    ensures Quiet(trace[i + 1])
  {
    ShapeThroughout(c, trace, events, i);
    QuietNext(c, trace[i], events[i].step, events[i].spawned, trace[i + 1]);
  }

  lemma QuietInit(c: Config, s: State)
    requires Init(c, s)
    ensures Quiet(s)
  {
  }

  lemma {:induction false} QuietThroughout(c: Config, trace: seq<State>, events: seq<Event>, i: nat)
    requires Execution(c, trace, events) && CalmCrashes(trace, events) && i < |trace|
    ensures Quiet(trace[i])
    decreases i
  {
    if i == 0 {
      QuietInit(c, trace[0]);
    } else {
      QuietThroughout(c, trace, events, i - 1);
      QuietStep(c, trace, events, i - 1);
    }
  }

  ghost predicate SomeoneWrites(s: State) {
    exists w :: w in s.workers && s.workers[w].task in s.rows &&
                Matches(s.rows[s.workers[w].task], s.workers[w].ti.ref)
  }

  lemma AtRestNobodyWrites(s: State)
    requires Shape(s)
    requires forall id :: id in s.rows ==>
               s.rows[id].state.IsTerminal() || s.rows[id].state.Scheduled? || Stranded(s, id)
    ensures !SomeoneWrites(s)
  {
    forall w | w in s.workers && s.workers[w].task in s.rows
      ensures !Matches(s.rows[s.workers[w].task], s.workers[w].ti.ref)
    {
      var id := s.workers[w].task;
      assert WorkerShape(s.rows, s.workers[w]) && RowShape(s.rows[id]);
      assert Follows(s.workers[w], id, s.rows[id]) ==> HasFollower(s, id, s.rows[id]);
    }
  }

  /** Whenever a retry is accepted, after crashes that were all calm, no row is queued or running and no
      goroutine can write any row any more: the retry clears no attempt that somebody still follows. */
  lemma RetryNeverOrphans(c: Config, trace: seq<State>, events: seq<Event>, i: nat, ids: set<string>)
    requires Execution(c, trace, events) && CalmCrashes(trace, events) && i < |trace|
    requires Enabled(c, trace[i], RetryBegin(ids))
    ensures forall id :: id in trace[i].rows ==> !NeedsFollower(trace[i].rows[id].state)
    ensures !SomeoneWrites(trace[i])
  {
    var s := trace[i];
    QuietThroughout(c, trace, events, i);
    ShapeThroughout(c, trace, events, i);
    forall id | id in s.rows
      ensures s.rows[id].state.IsTerminal() || s.rows[id].state.Scheduled? || Stranded(s, id)
    {
      assert AtRest(s, id);
    }
    AtRestNobodyWrites(s);
  }
}
